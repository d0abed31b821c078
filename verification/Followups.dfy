/** The runs the mock pipeline builds, and the events a recovery action adds to them. */
module Followups {
  import opened Collections
  import opened BatchIds
  import opened Lifecycle

  // ---------- Scenarios ----------

  datatype Scenario =
    | Normal | FullSuccess | BatchMinute | SettlementFailure | RandomFailure | CheckoutFailure
    | PaymentFailure | AuthorizationFailure | CaptureFailure | RecoveryRetry | LiveMix

  datatype Stage = CheckoutStage | PaymentStage | AuthorizationStage | CaptureStage

  /** LIVE_MIX cycles through the other scenarios with the seed. */
  function Concrete(s: Scenario, seed: nat): Scenario {
    if s == LiveMix then
      var cycle := seed % 10;
      if cycle <= 5 then Normal
      else if cycle == 6 then CheckoutFailure
      else if cycle == 7 then PaymentFailure
      else if cycle == 8 then AuthorizationFailure
      else CaptureFailure
    else s
  }

  function Ok(t: EventType): LifecycleStep {
    LifecycleStep(t, "success")
  }

  function Failing(t: EventType): LifecycleStep {
    LifecycleStep(t, "failure")
  }

  const TO_AUTHORIZATION: seq<LifecycleStep> :=
    [Ok(CheckoutStarted), Ok(CheckoutCompleted), Ok(PaymentCreated), Ok(PaymentSucceeded), Ok(AuthorizationRequested)]

  const TO_CAPTURE: seq<LifecycleStep> := TO_AUTHORIZATION + [Ok(AuthorizationSucceeded), Ok(CaptureRequested)]

  /** The steps up to a failure at a stage. */
  function FailingAt(stage: Stage): seq<LifecycleStep> {
    match stage
    case CheckoutStage => [Ok(CheckoutStarted), Failing(CheckoutFailed)]
    case PaymentStage => TO_AUTHORIZATION[..2] + [Ok(PaymentCreated), Failing(PaymentFailed)]
    case AuthorizationStage => TO_AUTHORIZATION + [Failing(AuthorizationFailed)]
    case CaptureStage => TO_CAPTURE + [Failing(CaptureFailed)]
  }

  /** `scenario_steps`; `drawn` is the stage that a random failure picks. */
  function ScenarioSteps(s: Scenario, seed: nat, drawn: Stage): seq<LifecycleStep> {
    match Concrete(s, seed)
    case RandomFailure => FailingAt(drawn)
    case CheckoutFailure => FailingAt(CheckoutStage)
    case PaymentFailure => FailingAt(PaymentStage)
    case AuthorizationFailure => FailingAt(AuthorizationStage)
    case CaptureFailure => FailingAt(CaptureStage)
    case RecoveryRetry =>
      FailingAt(AuthorizationStage)
      + [Ok(AuthorizationRequested), Ok(AuthorizationSucceeded), Ok(CaptureRequested), Ok(CaptureSucceeded)]
    case _ => TO_CAPTURE + [Ok(CaptureSucceeded)]
  }

  /** The attempt number of each step: the retry scenario goes to 2 where it asks again after the failure. */
  function AttemptAt(s: Scenario, i: nat): nat {
    if s == RecoveryRetry && i >= 6 then 2 else 1
  }

  function ScenarioEvents(s: Scenario, seed: nat, drawn: Stage, ids: Ids): seq<LifecycleEvent> {
    var steps := ScenarioSteps(s, seed, drawn);
    seq(|steps|, i requires 0 <= i < |steps| =>
      LifecycleEvent(ids, steps[i].eventType, steps[i].status, AttemptId(ids.paymentId, AttemptAt(s, i))))
  }

  /** Every event passes the guard, so the source never raises its error here. */
  method BuildScenarioEvents(s: Scenario, seed: nat, drawn: Stage, ids: Ids)
    returns (events: seq<LifecycleEvent>, ok: bool)
    requires Lifecycle.Complete(ids)
    ensures ok && events == ScenarioEvents(s, seed, drawn, ids)
  {
    hide AttemptId, Accepts, Applied, ScenarioSteps, ScenarioEvents, AttemptAt;
    var steps := ScenarioSteps(s, seed, drawn);
    var store := new TransactionStateStore(ids.transactionId);
    var attempt, failed := 1, false;
    ghost var all, g := ScenarioEvents(s, seed, drawn, ids), FreshGuard(ids.transactionId);
    ScenarioAccepted(s, seed, drawn, ids);
    EventsMatchSteps(s, seed, drawn, ids);
    events, ok := [], true;
    for i := 0 to |steps|
      invariant ok && events == all[..i]
      invariant store.State() == After(g, all[..i])
      invariant failed == (i > 0 && steps[i - 1].status == "failure")
      invariant attempt == if i == 0 then 1 else AttemptAt(s, i - 1)
    {
      AttemptCounts(s, seed, drawn, i);
      if s == RecoveryRetry && failed && steps[i].eventType == AuthorizationRequested {
        attempt, failed := attempt + 1, false;
      }
      var e := LifecycleEvent(ids, steps[i].eventType, steps[i].status, AttemptId(ids.paymentId, attempt));
      assert all[i] == e && all[..i + 1][..i] == all[..i];
      assert AcceptedAt(g, all, i);
      var accepted := store.ValidateAndApply(e);
      ok := ok && accepted;
      events := events + [e];
      failed := steps[i].status == "failure";
    }
    assert all[..|steps|] == all;
  }

  lemma EventsMatchSteps(s: Scenario, seed: nat, drawn: Stage, ids: Ids)
    ensures var steps, all := ScenarioSteps(s, seed, drawn), ScenarioEvents(s, seed, drawn, ids);
            && |all| == |steps|
            && forall i :: 0 <= i < |all| ==>
                 all[i] == LifecycleEvent(ids, steps[i].eventType, steps[i].status,
                                          AttemptId(ids.paymentId, AttemptAt(s, i)))
  {
    hide ScenarioSteps, AttemptId, AttemptAt;
  }

  /** The retry scenario fails at its sixth step and asks again at its seventh; no other does. */
  lemma AttemptCounts(s: Scenario, seed: nat, drawn: Stage, i: nat)
    requires i < |ScenarioSteps(s, seed, drawn)|
    ensures var steps := ScenarioSteps(s, seed, drawn);
            var before := if i == 0 then 1 else AttemptAt(s, i - 1);
            var again := s == RecoveryRetry && i > 0 && steps[i - 1].status == "failure"
                         && steps[i].eventType == AuthorizationRequested;
            AttemptAt(s, i) == if again then before + 1 else before
  {
  }

  /** The events of every scenario, for every seed and draw, pass the guard from the start. */
  lemma ScenarioAccepted(s: Scenario, seed: nat, drawn: Stage, ids: Ids)
    requires Lifecycle.Complete(ids)
    ensures AllAccepted(FreshGuard(ids.transactionId), ScenarioEvents(s, seed, drawn, ids))
  {
    hide AttemptId, Accepts, Applied, AcceptedAt, Chained;
    var g, one := FreshGuard(ids.transactionId), AttemptId(ids.paymentId, 1);
    var steps, events := ScenarioSteps(s, seed, drawn), ScenarioEvents(s, seed, drawn, ids);
    AttemptNotEmpty(ids.paymentId, 1);
    FirstStepAccepted(g, ids, one);
    StepsChained(s, seed, drawn);
    if s == RecoveryRetry {
      RetryScenarioAccepted(ids);
      assert events == RetryEvents(ids);
    } else {
      ChainAccepted(g, ids, one, steps);
      assert events == EventsOf(ids, one, steps);
    }
  }

  lemma AttemptNotEmpty(paymentId: string, n: nat)
    ensures AttemptId(paymentId, n) != ""
  {
    assert |AttemptId(paymentId, n)| >= |Decimal(n)|;
  }

  lemma FirstStepAccepted(g: Guard, ids: Ids, attemptId: string)
    requires Lifecycle.Complete(ids) && g == FreshGuard(ids.transactionId)
    ensures Accepts(g, LifecycleEvent(ids, CheckoutStarted, "success", attemptId))
  {
  }

  lemma ChainedSnoc(p: seq<LifecycleStep>, s: LifecycleStep)
    requires Chained(p) && |p| > 0 && p[|p| - 1].status == "success" && IsLifecycle(s.eventType)
    requires Predecessor(s.eventType) == Some(p[|p| - 1].eventType)
    ensures Chained(p + [s])
  {
  }

  lemma StartsChained()
    ensures Chained([Ok(CheckoutStarted)]) && Chained(TO_AUTHORIZATION) && Chained(TO_CAPTURE)
    ensures |TO_AUTHORIZATION| == 5 && |TO_CAPTURE| == 7 && TO_CAPTURE[0] == Ok(CheckoutStarted)
  {
    hide Chained;
    var a := [Ok(CheckoutStarted)];
    assert Chained(a) by {
      OneStep(a);
    }
    ChainedSnoc(a, Ok(CheckoutCompleted));
    var b := a + [Ok(CheckoutCompleted)];
    ChainedSnoc(b, Ok(PaymentCreated));
    var c := b + [Ok(PaymentCreated)];
    ChainedSnoc(c, Ok(PaymentSucceeded));
    var d := c + [Ok(PaymentSucceeded)];
    ChainedSnoc(d, Ok(AuthorizationRequested));
    assert TO_AUTHORIZATION == d + [Ok(AuthorizationRequested)];
    ChainedSnoc(TO_AUTHORIZATION, Ok(AuthorizationSucceeded));
    ChainedSnoc(TO_AUTHORIZATION + [Ok(AuthorizationSucceeded)], Ok(CaptureRequested));
    assert TO_CAPTURE == TO_AUTHORIZATION + [Ok(AuthorizationSucceeded)] + [Ok(CaptureRequested)];
  }

  lemma OneStep(steps: seq<LifecycleStep>)
    requires |steps| == 1 && IsLifecycle(steps[0].eventType)
    ensures Chained(steps)
  {
  }

  lemma PaymentFailureChained()
    ensures Chained(FailingAt(PaymentStage)) && |FailingAt(PaymentStage)| == 4
    ensures FailingAt(PaymentStage)[0] == Ok(CheckoutStarted)
  {
    var p := TO_AUTHORIZATION[..2] + [Ok(PaymentCreated)];
    assert p == [Ok(CheckoutStarted), Ok(CheckoutCompleted), Ok(PaymentCreated)];
    ChainedSnoc(p, Failing(PaymentFailed));
    assert FailingAt(PaymentStage) == p + [Failing(PaymentFailed)];
  }

  lemma FailingChained(stage: Stage)
    ensures Chained(FailingAt(stage)) && |FailingAt(stage)| > 0 && FailingAt(stage)[0] == Ok(CheckoutStarted)
    ensures |FailingAt(AuthorizationStage)| == 6
  {
    hide Chained;
    StartsChained();
    match stage {
      case CheckoutStage =>
        ChainedSnoc([Ok(CheckoutStarted)], Failing(CheckoutFailed));
        assert FailingAt(stage) == [Ok(CheckoutStarted)] + [Failing(CheckoutFailed)];
      case PaymentStage => PaymentFailureChained();
      case AuthorizationStage => ChainedSnoc(TO_AUTHORIZATION, Failing(AuthorizationFailed));
      case CaptureStage => ChainedSnoc(TO_CAPTURE, Failing(CaptureFailed));
    }
  }

  lemma NormalChained()
    ensures Chained(TO_CAPTURE + [Ok(CaptureSucceeded)])
  {
    hide Chained;
    StartsChained();
    ChainedSnoc(TO_CAPTURE, Ok(CaptureSucceeded));
  }

  lemma StepsChained(s: Scenario, seed: nat, drawn: Stage)
    ensures var steps := ScenarioSteps(s, seed, drawn);
            && |steps| > 0 && steps[0] == Ok(CheckoutStarted)
            && (s != RecoveryRetry ==> Chained(steps))
            && Chained(FailingAt(AuthorizationStage)) && |FailingAt(AuthorizationStage)| == 6
  {
    hide Chained, FailingAt;
    FailingChained(drawn);
    FailingChained(CheckoutStage);
    FailingChained(PaymentStage);
    FailingChained(AuthorizationStage);
    FailingChained(CaptureStage);
    NormalChained();
  }

  const RETRY_STEPS: seq<LifecycleStep> :=
    [Ok(AuthorizationRequested), Ok(AuthorizationSucceeded), Ok(CaptureRequested), Ok(CaptureSucceeded)]

  function RetryEvents(ids: Ids): seq<LifecycleEvent> {
    EventsOf(ids, AttemptId(ids.paymentId, 1), FailingAt(AuthorizationStage))
    + EventsOf(ids, AttemptId(ids.paymentId, 2), RETRY_STEPS)
  }

  lemma RetryScenarioAccepted(ids: Ids)
    requires Lifecycle.Complete(ids)
    ensures AllAccepted(FreshGuard(ids.transactionId), RetryEvents(ids))
  {
    hide AttemptId, Accepts, Applied, AcceptedAt, Chained;
    var g, one, two := FreshGuard(ids.transactionId), AttemptId(ids.paymentId, 1), AttemptId(ids.paymentId, 2);
    AttemptNotEmpty(ids.paymentId, 1);
    AttemptNotEmpty(ids.paymentId, 2);
    AttemptIdsDiffer(ids.paymentId, 1, 2);
    FirstStepAccepted(g, ids, one);
    StepsChained(RecoveryRetry, 0, CheckoutStage);
    var first := FailingAt(AuthorizationStage);
    ChainAccepted(g, ids, one, first);
    var mid := After(g, EventsOf(ids, one, first));
    assert first[3] == Ok(PaymentSucceeded) && first[3] in first;
    AcceptedFits(g, LifecycleEvent(ids, CheckoutStarted, "success", one));
    NewAttemptAccepted(mid, LifecycleEvent(ids, AuthorizationRequested, "success", two));
    RetryChained();
    ChainAccepted(mid, ids, two, RETRY_STEPS);
    AcceptedInTurn(g, EventsOf(ids, one, first), EventsOf(ids, two, RETRY_STEPS));
  }

  lemma RetryChained()
    ensures Chained(RETRY_STEPS)
  {
  }

  /** What a guard takes after a failure: the start of a new attempt whose predecessor has succeeded. */
  lemma NewAttemptAccepted(g: Guard, e: LifecycleEvent)
    requires IdsFit(g.ids, e.ids) && IsLifecycle(e.eventType) && Retries(g, e)
    requires Predecessor(e.eventType).Some? && Predecessor(e.eventType).value in g.successes
    ensures Accepts(g, e)
  {
  }

  lemma {:induction false} AfterConcat(g: Guard, a: seq<LifecycleEvent>, b: seq<LifecycleEvent>)
    ensures After(g, a + b) == After(After(g, a), b)
  {
    hide Applied;
    if |b| == 0 {
      assert a + b == a;
    } else {
      assert (a + b)[..|a + b| - 1] == a + b[..|b| - 1];
      AfterConcat(g, a, b[..|b| - 1]);
    }
  }

  lemma AcceptedInTurn(g: Guard, a: seq<LifecycleEvent>, b: seq<LifecycleEvent>)
    requires AllAccepted(g, a) && AllAccepted(After(g, a), b)
    ensures AllAccepted(g, a + b)
  {
    hide Accepts, After;
    forall i | 0 <= i < |a + b|
      ensures AcceptedAt(g, a + b, i)
    {
      if i < |a| {
        assert AcceptedAt(g, a, i) && (a + b)[..i] == a[..i];
      } else {
        assert AcceptedAt(After(g, a), b, i - |a|);
        AfterConcat(g, a, b[..i - |a|]);
        assert (a + b)[..i] == a + b[..i - |a|];
      }
    }
  }

  // ---------- Follow-up events of a recovery ----------

  datatype ActionName = SendLink | Switch | RetryThePayment | RetryTheCapture | OtherAction

  /** `percent` is the number that hashing a transaction with a word comes to. */
  function Succeeds(action: ActionName, percent: string -> nat): bool {
    match action
    case SendLink => percent("SEND_PAYMENT_LINK") < 8
    case Switch => percent("SWITCH_PROVIDER") < 85
    case RetryThePayment => percent("RETRY_PAYMENT") < 35
    case RetryTheCapture => percent("RETRY_CAPTURE") < 35
    case OtherAction => false
  }

  function PaymentSteps(success: bool): seq<LifecycleStep> {
    if success then
      [Ok(PaymentCreated), Ok(PaymentSucceeded), Ok(AuthorizationRequested), Ok(AuthorizationSucceeded),
       Ok(CaptureRequested), Ok(CaptureSucceeded)]
    else [Ok(PaymentCreated), Failing(PaymentFailed)]
  }

  function FollowupSteps(action: ActionName, percent: string -> nat): seq<LifecycleStep> {
    if action == SendLink && percent("open") >= 55 then []
    else (if action == SendLink then [Ok(PaymentLinkClicked)] else []) + PaymentSteps(Succeeds(action, percent))
  }

  /** A stored attempt count of 0 counts as 1. */
  function FollowupAttempt(attempts: nat): nat {
    (if attempts == 0 then 1 else attempts) + 1
  }

  method RecoveryFollowupEvents(action: Option<ActionName>, succeeded: bool, attempts: nat, ids: Ids,
                                percent: string -> nat)
    returns (events: seq<LifecycleEvent>)
    ensures action == None || !succeeded ==> events == []
    ensures action.Some? && succeeded ==>
              events == EventsOf(ids, AttemptId(ids.paymentId, FollowupAttempt(attempts)),
                                 FollowupSteps(action.value, percent))
  {
    hide AttemptId;
    if action == None || !succeeded {
      return [];
    }
    var number := (if attempts == 0 then 1 else attempts) + 1;
    var steps: seq<LifecycleStep> := [];
    if action.value == SendLink {
      if percent("open") >= 55 {
        return [];
      }
      steps := [Ok(PaymentLinkClicked)];
    }
    var success := RecoverySuccess(action.value, percent);
    if success {
      steps := steps + [Ok(PaymentCreated), Ok(PaymentSucceeded), Ok(AuthorizationRequested),
                        Ok(AuthorizationSucceeded), Ok(CaptureRequested), Ok(CaptureSucceeded)];
    } else {
      steps := steps + [Ok(PaymentCreated), Failing(PaymentFailed)];
    }
    events := Generate(ids, AttemptId(ids.paymentId, number), steps);
  }

  method RecoverySuccess(action: ActionName, percent: string -> nat) returns (success: bool)
    ensures success == Succeeds(action, percent)
  {
    if action == SendLink {
      return percent("SEND_PAYMENT_LINK") < 8;
    }
    if action == Switch {
      return percent("SWITCH_PROVIDER") < 85;
    }
    if action == RetryThePayment {
      return percent("RETRY_PAYMENT") < 35;
    }
    if action == RetryTheCapture {
      return percent("RETRY_CAPTURE") < 35;
    }
    success := false;
  }

  method Generate(ids: Ids, attemptId: string, steps: seq<LifecycleStep>) returns (events: seq<LifecycleEvent>)
    ensures events == EventsOf(ids, attemptId, steps)
  {
    events := [];
    for i := 0 to |steps|
      invariant events == EventsOf(ids, attemptId, steps[..i])
    {
      events := events + [LifecycleEvent(ids, steps[i].eventType, steps[i].status, attemptId)];
    }
    assert steps[..|steps|] == steps;
  }

  /** A guard that a failure of attempt number n has stopped. */
  predicate Stopped(g: Guard, ids: Ids, n: nat) {
    g.terminal && g.ids == ids && Lifecycle.Complete(ids) && g.attemptId == AttemptId(ids.paymentId, n)
  }

  /** One that had got past its checkout. */
  predicate Recoverable(g: Guard, ids: Ids, n: nat) {
    Stopped(g, ids, n) && CheckoutCompleted in g.successes
  }

  /**
   Any run that the guard accepts and that ends in a failed payment, authorization or capture
   leaves it in a state from which recovery can go on.
   */
  lemma FailedRunsAreRecoverable(transactionId: string, p: seq<LifecycleEvent>, e: LifecycleEvent, n: nat)
    requires KnownStatuses(p + [e]) && e.status == "failure"
    requires e.eventType in {PaymentFailed, AuthorizationFailed, CaptureFailed}
    requires Accepts(After(FreshGuard(transactionId), p), e)
    requires After(FreshGuard(transactionId), p + [e]).attemptId == AttemptId(e.ids.paymentId, n)
    ensures Recoverable(After(FreshGuard(transactionId), p + [e]), e.ids, n)
  {
    hide Applied, Accepts, Coherent, AttemptId, Closed;
    var g := FreshGuard(transactionId);
    assert (p + [e])[..|p|] == p;
    assert forall i :: 0 <= i < |p| ==> p[i] == (p + [e])[i];
    FreshCoherent(transactionId);
    RunCoherent(g, p);
    AcceptedBehind(After(g, p), e);
    ClosedOf(After(g, p));
    CheckoutBehind(After(g, p).successes, Predecessor(e.eventType).value);
    FailureApplied(After(g, p), e);
    assert After(g, p + [e]) == Applied(After(g, p), e);
  }

  lemma CheckoutBehind(s: set<EventType>, t: EventType)
    requires Closed(s) && t in s && t in {PaymentCreated, AuthorizationRequested, CaptureRequested}
    ensures CheckoutCompleted in s
  {
    if t == CaptureRequested {
      UpstreamInSuccesses(s);
      assert UPSTREAM[1] == CheckoutCompleted;
    } else if t == AuthorizationRequested {
      assert Predecessor(AuthorizationRequested).value in s && Predecessor(PaymentSucceeded).value in s;
      assert Predecessor(PaymentCreated).value in s;
    } else {
      assert Predecessor(PaymentCreated).value in s;
    }
  }

  lemma FailureApplied(g: Guard, e: LifecycleEvent)
    requires Accepts(g, e) && e.status == "failure"
    ensures var g' := Applied(g, e);
            g'.terminal && g'.ids == e.ids && Lifecycle.Complete(e.ids) && g.successes <= g'.successes
  {
    BoundToGiven(g.ids, e.ids);
    assert FieldFits(g.ids, e.ids, 0) && FieldFits(g.ids, e.ids, 1);
    assert FieldFits(g.ids, e.ids, 2) && FieldFits(g.ids, e.ids, 3);
  }

  lemma PaymentChained(success: bool)
    ensures Chained(PaymentSteps(success)) && |PaymentSteps(success)| > 0
    ensures PaymentSteps(success)[0] == Ok(PaymentCreated)
  {
  }

  lemma CompleteFits(ids: Ids)
    requires Lifecycle.Complete(ids)
    ensures IdsFit(ids, ids)
  {
  }

  lemma FirstFollowup(g: Guard, ids: Ids, n: nat, k: nat)
    requires Stopped(g, ids, n)
    ensures Accepts(g, LifecycleEvent(ids, PaymentCreated, "success", AttemptId(ids.paymentId, k)))
            <==> CheckoutCompleted in g.successes && k != n
  {
    hide AttemptId, IdsFit;
    var e := LifecycleEvent(ids, PaymentCreated, "success", AttemptId(ids.paymentId, k));
    AttemptNotEmpty(ids.paymentId, k);
    AttemptNotEmpty(ids.paymentId, n);
    CompleteFits(ids);
    if k == n {
      TerminalAbsorbs(g, e);
    } else {
      AttemptIdsDiffer(ids.paymentId, k, n);
    }
  }

  /**
   The follow-ups of a retry or switch are all accepted if and only if the checkout had been
   completed and they run under another attempt number, greater or not.
   */
  lemma FollowupAcceptedIff(g: Guard, ids: Ids, n: nat, attempts: nat, success: bool)
    requires Stopped(g, ids, n)
    ensures var events := EventsOf(ids, AttemptId(ids.paymentId, FollowupAttempt(attempts)), PaymentSteps(success));
            AllAccepted(g, events) <==> CheckoutCompleted in g.successes && FollowupAttempt(attempts) != n
  {
    hide AttemptId, Accepts, Chained, Stopped, PaymentSteps, FollowupAttempt;
    var k := FollowupAttempt(attempts);
    var attemptId := AttemptId(ids.paymentId, k);
    var events := EventsOf(ids, attemptId, PaymentSteps(success));
    PaymentChained(success);
    FirstFollowup(g, ids, n, k);
    assert events[0] == LifecycleEvent(ids, PaymentCreated, "success", attemptId) && events[..0] == [];
    assert AcceptedAt(g, events, 0) == Accepts(g, events[0]);
    if Accepts(g, events[0]) {
      AttemptNotEmpty(ids.paymentId, k);
      StoppedTerminal(g, ids, n);
      ChainAccepted(g, ids, attemptId, PaymentSteps(success));
    }
  }

  lemma StoppedTerminal(g: Guard, ids: Ids, n: nat)
    requires Stopped(g, ids, n)
    ensures g.terminal
  {
  }

  /** When they fail as well, they leave a guard from which recovery can go on. */
  lemma FollowupAccepted(g: Guard, ids: Ids, n: nat, attempts: nat, success: bool)
    requires Recoverable(g, ids, n) && FollowupAttempt(attempts) != n
    ensures var events := EventsOf(ids, AttemptId(ids.paymentId, FollowupAttempt(attempts)), PaymentSteps(success));
            && AllAccepted(g, events)
            && (!success ==> Recoverable(After(g, events), ids, FollowupAttempt(attempts)))
  {
    hide AttemptId, Accepts, Chained, AllAccepted, IdsFit, After;
    var k := FollowupAttempt(attempts);
    var attemptId := AttemptId(ids.paymentId, k);
    FollowupAcceptedIff(g, ids, n, attempts, success);
    FirstFollowup(g, ids, n, k);
    AttemptNotEmpty(ids.paymentId, k);
    PaymentChained(success);
    ChainAccepted(g, ids, attemptId, PaymentSteps(success));
  }

  /** The follow-ups of recovery after recovery: the r-th one runs with r executions on record. */
  function RecoveryEvents(ids: Ids, outcomes: seq<bool>): seq<LifecycleEvent> {
    if |outcomes| == 0 then []
    else
      RecoveryEvents(ids, outcomes[..|outcomes| - 1])
      + EventsOf(ids, AttemptId(ids.paymentId, FollowupAttempt(|outcomes|)), PaymentSteps(outcomes[|outcomes| - 1]))
  }

  /**
   From a run that failed on attempt 1, any number of recoveries of which only the last may
   succeed adds events that the guard accepts, every one of them.
   */
  lemma {:induction false} SuccessiveRecoveriesAccepted(g: Guard, ids: Ids, outcomes: seq<bool>)
    requires Recoverable(g, ids, 1)
    requires forall i :: 0 <= i < |outcomes| - 1 ==> !outcomes[i]
    ensures AllAccepted(g, RecoveryEvents(ids, outcomes))
    ensures (|outcomes| > 0 ==> !outcomes[|outcomes| - 1]) ==>
              Recoverable(After(g, RecoveryEvents(ids, outcomes)), ids, |outcomes| + 1)
  {
    hide Recoverable, EventsOf, AcceptedAt, AttemptId;
    if |outcomes| == 0 {
    } else {
      var p := outcomes[..|outcomes| - 1];
      SuccessiveRecoveriesAccepted(g, ids, p);
      var earlier := RecoveryEvents(ids, p);
      var last := EventsOf(ids, AttemptId(ids.paymentId, FollowupAttempt(|outcomes|)),
                           PaymentSteps(outcomes[|outcomes| - 1]));
      FollowupAccepted(After(g, earlier), ids, |p| + 1, |outcomes|, outcomes[|outcomes| - 1]);
      AcceptedInTurn(g, earlier, last);
      AfterConcat(g, earlier, last);
    }
  }

  /** The follow-ups of a payment link all pass, in any state, if and only if there are none: the click never does. */
  lemma LinkAcceptedIff(g: Guard, ids: Ids, attemptId: string, percent: string -> nat)
    ensures var events := EventsOf(ids, attemptId, FollowupSteps(SendLink, percent));
            && (AllAccepted(g, events) <==> percent("open") >= 55)
            && (percent("open") >= 55 <==> events == [])
  {
    hide PaymentSteps, Succeeds, Accepts;
    var events := EventsOf(ids, attemptId, FollowupSteps(SendLink, percent));
    if percent("open") < 55 {
      assert events[0].eventType == PaymentLinkClicked;
      ClickRejected(After(g, events[..0]), events[0]);
      assert !AcceptedAt(g, events, 0);
    }
  }

  lemma ClickRejected(g: Guard, e: LifecycleEvent)
    requires e.eventType == PaymentLinkClicked
    ensures !Accepts(g, e)
    ensures g.ids == e.ids && IdsFit(g.ids, e.ids) ==> Applied(g, e) == g
  {
    if IdsFit(g.ids, e.ids) {
      BoundToGiven(g.ids, e.ids);
    }
  }

  /**
   Only the click is lost: the payment events behind it are accepted exactly as the follow-ups
   of a retry would be. So for a checkout that failed none of them is.
   */
  lemma AfterTheClick(g: Guard, ids: Ids, n: nat, attempts: nat, percent: string -> nat)
    requires Stopped(g, ids, n) && percent("open") < 55
    ensures var attemptId := AttemptId(ids.paymentId, FollowupAttempt(attempts));
            var events := EventsOf(ids, attemptId, FollowupSteps(SendLink, percent));
            && |events| > 0 && After(g, events[..1]) == g
            && (AllAccepted(g, events[1..]) <==> CheckoutCompleted in g.successes && FollowupAttempt(attempts) != n)
  {
    hide PaymentSteps, Succeeds, Accepts, AttemptId, FollowupAttempt, AllAccepted, Applied;
    var attemptId := AttemptId(ids.paymentId, FollowupAttempt(attempts));
    var events := EventsOf(ids, attemptId, FollowupSteps(SendLink, percent));
    CompleteFits(ids);
    ClickRejected(g, events[0]);
    assert events[..1] == [events[0]] && [events[0]][..0] == [];
    assert events[1..] == EventsOf(ids, attemptId, PaymentSteps(Succeeds(SendLink, percent)));
    FollowupAcceptedIff(g, ids, n, attempts, Succeeds(SendLink, percent));
  }
}
