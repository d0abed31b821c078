/** The guard that keeps the events of one transaction in causal order. */
module Lifecycle {
  import opened Collections

  datatype EventType =
    | CheckoutStarted | CheckoutCompleted | CheckoutFailed
    | PaymentCreated | PaymentSucceeded | PaymentFailed
    | AuthorizationRequested | AuthorizationSucceeded | AuthorizationFailed
    | CaptureRequested | CaptureSucceeded | CaptureFailed
    | PaymentLinkClicked | OtherType(text: string)

  predicate IsLifecycle(t: EventType) {
    !t.PaymentLinkClicked? && !t.OtherType?
  }

  /** What must have come right before an event; only `checkout_started` needs nothing. */
  function Predecessor(t: EventType): Option<EventType> {
    match t
    case CheckoutCompleted => Some(CheckoutStarted)
    case CheckoutFailed => Some(CheckoutStarted)
    case PaymentCreated => Some(CheckoutCompleted)
    case PaymentSucceeded => Some(PaymentCreated)
    case PaymentFailed => Some(PaymentCreated)
    case AuthorizationRequested => Some(PaymentSucceeded)
    case AuthorizationSucceeded => Some(AuthorizationRequested)
    case AuthorizationFailed => Some(AuthorizationRequested)
    case CaptureRequested => Some(AuthorizationSucceeded)
    case CaptureSucceeded => Some(CaptureRequested)
    case CaptureFailed => Some(CaptureRequested)
    case _ => None
  }

  /** Transaction, order, payment and trace id; empty where the event has none. */
  datatype Ids = Ids(transactionId: string, orderId: string, paymentId: string, traceId: string)

  datatype LifecycleEvent = LifecycleEvent(ids: Ids, eventType: EventType, status: string, attemptId: string)

  /** Empty texts stand for ids that are not bound yet. */
  datatype Guard = Guard(
    ids: Ids, attemptId: string, last: Option<EventType>, successes: set<EventType>, terminal: bool)

  function FreshGuard(transactionId: string): Guard {
    Guard(Ids(transactionId, "", "", ""), "", None, {}, false)
  }

  const FIELDS: nat := 4

  function Field(ids: Ids, i: nat): string {
    if i == 0 then ids.transactionId else if i == 1 then ids.orderId else if i == 2 then ids.paymentId else ids.traceId
  }

  function WithField(ids: Ids, i: nat, value: string): Ids {
    if i == 0 then ids.(transactionId := value)
    else if i == 1 then ids.(orderId := value)
    else if i == 2 then ids.(paymentId := value)
    else ids.(traceId := value)
  }

  predicate FieldFits(bound: Ids, given: Ids, i: nat) {
    Field(given, i) != "" && (Field(bound, i) == "" || Field(bound, i) == Field(given, i))
  }

  /** The ids bound by checking the first n fields, up to the first that does not fit. */
  function BoundIds(bound: Ids, given: Ids, n: nat): Ids
    requires n <= FIELDS
  {
    if n == 0 then bound
    else if (forall i :: 0 <= i < n ==> FieldFits(bound, given, i)) then
      WithField(BoundIds(bound, given, n - 1), n - 1, Field(given, n - 1))
    else BoundIds(bound, given, n - 1)
  }

  predicate IdsFit(bound: Ids, given: Ids) {
    forall i :: 0 <= i < FIELDS ==> FieldFits(bound, given, i)
  }

  /** A new attempt after a failure, as far as the attempt ids tell. */
  predicate Retries(g: Guard, e: LifecycleEvent) {
    g.terminal && e.attemptId != "" && g.attemptId != "" && e.attemptId != g.attemptId
  }

  /** When the guard lets an event pass. */
  predicate Accepts(g: Guard, e: LifecycleEvent) {
    && IdsFit(g.ids, e.ids) && IsLifecycle(e.eventType)
    && var p := Predecessor(e.eventType);
       if Retries(g, e) then p.Some? && p.value in g.successes
       else !g.terminal && (p.Some? ==> g.last == p)
  }

  /** What the guard becomes; a rejected event may still bind ids and the attempt. */
  function Applied(g: Guard, e: LifecycleEvent): Guard {
    var ids := BoundIds(g.ids, e.ids, FIELDS);
    var reached := IdsFit(g.ids, e.ids) && IsLifecycle(e.eventType);
    var attempt :=
      if reached && Retries(g, e) then (if Accepts(g, e) then e.attemptId else g.attemptId)
      else if reached && g.attemptId == "" then e.attemptId else g.attemptId;
    if !Accepts(g, e) then g.(ids := ids, attemptId := attempt)
    else
      Guard(ids, attempt, Some(e.eventType),
            g.successes + (if e.status == "success" then {e.eventType} else {}),
            e.status == "failure" || e.status == "unknown")
  }

  class TransactionStateStore {
    var ids: Ids
    var attemptId: string
    var last: Option<EventType>
    var successes: set<EventType>
    var terminal: bool

    ghost function State(): Guard
      reads this
    {
      Guard(ids, attemptId, last, successes, terminal)
    }

    constructor (transactionId: string)
      ensures State() == FreshGuard(transactionId)
    {
      ids, attemptId, last, successes, terminal := Ids(transactionId, "", "", ""), "", None, {}, false;
    }

    /** False where the source raises a LifecycleTransitionError. */
    method ValidateAndApply(e: LifecycleEvent) returns (ok: bool)
      modifies this
      ensures ok == Accepts(old(State()), e)
      ensures State() == Applied(old(State()), e)
    {
      ghost var g := State();
      for i := 0 to FIELDS
        invariant ids == BoundIds(g.ids, e.ids, i)
        invariant forall j :: 0 <= j < i ==> FieldFits(g.ids, e.ids, j)
        invariant forall j :: i <= j < FIELDS ==> Field(ids, j) == Field(g.ids, j)
        invariant State() == g.(ids := ids)
      {
        var value, expected := Field(e.ids, i), Field(ids, i);
        if value == "" || (expected != "" && value != expected) {
          StopsBinding(g.ids, e.ids, i);
          return false;
        }
        ids := WithField(ids, i, value);
      }
      if !IsLifecycle(e.eventType) {
        return false;
      }
      var predecessor := Predecessor(e.eventType);
      if terminal && e.attemptId != "" && attemptId != "" && e.attemptId != attemptId {
        if predecessor.None? || predecessor.value !in successes {
          return false;
        }
        terminal, last, attemptId := false, predecessor, e.attemptId;
      } else if attemptId == "" {
        attemptId := e.attemptId;
      }
      if terminal || (predecessor.Some? && last != predecessor) {
        return false;
      }
      last := Some(e.eventType);
      if e.status == "success" {
        successes := successes + {e.eventType};
      }
      terminal := e.status == "failure" || e.status == "unknown";
      ok := true;
    }
  }

  lemma {:induction false} StopsBinding(bound: Ids, given: Ids, i: nat)
    requires i < FIELDS && !FieldFits(bound, given, i)
    ensures BoundIds(bound, given, FIELDS) == BoundIds(bound, given, i)
  {
    assert BoundIds(bound, given, i + 1) == BoundIds(bound, given, i);
    if i + 1 < FIELDS {
      assert BoundIds(bound, given, i + 2) == BoundIds(bound, given, i + 1);
    }
    if i + 2 < FIELDS {
      assert BoundIds(bound, given, i + 3) == BoundIds(bound, given, i + 2);
    }
    if i + 3 < FIELDS {
      assert BoundIds(bound, given, i + 4) == BoundIds(bound, given, i + 3);
    }
  }

  // ---------- One event ----------

  /** A rejected event changes neither the last event nor the successes nor the terminal flag. */
  lemma RejectedChangesNothing(g: Guard, e: LifecycleEvent)
    requires !Accepts(g, e)
    ensures var g' := Applied(g, e); g'.last == g.last && g'.successes == g.successes && g'.terminal == g.terminal
    ensures var g' := Applied(g, e); g.attemptId != "" ==> g'.attemptId == g.attemptId
  {
  }

  /** After a failure no event of the same attempt, or without a known attempt, gets through. */
  lemma TerminalAbsorbs(g: Guard, e: LifecycleEvent)
    requires g.terminal && (e.attemptId == "" || g.attemptId == "" || e.attemptId == g.attemptId)
    ensures !Accepts(g, e) && Applied(g, e).terminal
  {
  }

  // ---------- Runs ----------

  function After(g: Guard, events: seq<LifecycleEvent>): Guard {
    if |events| == 0 then g else Applied(After(g, events[..|events| - 1]), events[|events| - 1])
  }

  predicate AcceptedAt(g: Guard, events: seq<LifecycleEvent>, i: nat)
    requires i < |events|
  {
    Accepts(After(g, events[..i]), events[i])
  }

  /** So a whole run of events of a failed attempt leaves no trace but bound ids. */
  lemma {:induction false} FailedAttemptAbsorbs(g: Guard, events: seq<LifecycleEvent>)
    requires g.terminal && g.attemptId != ""
    requires forall i :: 0 <= i < |events| ==> events[i].attemptId == "" || events[i].attemptId == g.attemptId
    ensures forall i :: 0 <= i < |events| ==> !AcceptedAt(g, events, i)
    ensures var g' := After(g, events);
            g'.terminal && g'.last == g.last && g'.successes == g.successes && g'.attemptId == g.attemptId
  {
    hide Accepts, Applied;
    if |events| == 0 {
    } else {
      var p, e := events[..|events| - 1], events[|events| - 1];
      FailedAttemptAbsorbs(g, p);
      forall i | 0 <= i < |p|
        ensures !AcceptedAt(g, events, i)
      {
        assert !AcceptedAt(g, p, i) && p[..i] == events[..i];
      }
      TerminalAbsorbs(After(g, p), e);
      RejectedChangesNothing(After(g, p), e);
    }
  }

  const OUTCOMES: set<string> := {"success", "failure", "unknown"}

  predicate KnownStatuses(events: seq<LifecycleEvent>) {
    forall i :: 0 <= i < |events| ==> events[i].status in OUTCOMES
  }

  predicate Closed(s: set<EventType>) {
    forall t :: t in s && Predecessor(t).Some? ==> Predecessor(t).value in s
  }

  predicate Coherent(g: Guard) {
    Closed(g.successes) && (!g.terminal && g.last.Some? ==> g.last.value in g.successes)
  }

  /** The success set stays closed under predecessors. */
  lemma AppliedCoherent(g: Guard, e: LifecycleEvent)
    requires Coherent(g) && e.status in OUTCOMES
    ensures Coherent(Applied(g, e))
  {
    hide BoundIds, IdsFit;
  }

  lemma {:induction false} RunCoherent(g: Guard, events: seq<LifecycleEvent>)
    requires Coherent(g) && KnownStatuses(events)
    ensures Coherent(After(g, events))
  {
    hide Coherent, Applied;
    if |events| == 0 {
    } else {
      var p := events[..|events| - 1];
      assert forall i :: 0 <= i < |p| ==> p[i] == events[i];
      RunCoherent(g, p);
      AppliedCoherent(After(g, p), events[|events| - 1]);
    }
  }

  predicate SucceededAt(g: Guard, events: seq<LifecycleEvent>, j: nat, t: EventType)
    requires j < |events|
  {
    AcceptedAt(g, events, j) && events[j].eventType == t && events[j].status == "success"
  }

  /** The success set is the accepted success events, nothing else. */
  lemma {:induction false} SuccessesWereAccepted(g: Guard, events: seq<LifecycleEvent>, t: EventType)
    requires t !in g.successes
    ensures t in After(g, events).successes <==> exists j :: 0 <= j < |events| && SucceededAt(g, events, j, t)
  {
    hide Accepts, BoundIds;
    if |events| == 0 {
    } else {
      var p, e := events[..|events| - 1], events[|events| - 1];
      SuccessesWereAccepted(g, p, t);
      assert forall j :: 0 <= j < |p| ==> p[..j] == events[..j];
      assert forall j :: 0 <= j < |p| ==> (SucceededAt(g, p, j, t) <==> SucceededAt(g, events, j, t));
      if t in After(g, events).successes && t !in After(g, p).successes {
        assert SucceededAt(g, events, |p|, t);
      }
    }
  }

  /** The events of a run that the guard lets pass. */
  function Passed(g: Guard, events: seq<LifecycleEvent>): seq<LifecycleEvent> {
    if |events| == 0 then []
    else
      var p, e := events[..|events| - 1], events[|events| - 1];
      Passed(g, p) + if Accepts(After(g, p), e) then [e] else []
  }

  function TypesIn(events: seq<LifecycleEvent>): set<EventType> {
    set e | e in events && e.status == "success" :: e.eventType
  }

  /**
   After any events, what the guard goes by is told by the accepted ones alone: its last event
   is the last of them, its successes are theirs, and it is terminal if that last one failed.
   */
  lemma {:induction false} StateOfPassed(transactionId: string, events: seq<LifecycleEvent>)
    ensures var g, passed := After(FreshGuard(transactionId), events), Passed(FreshGuard(transactionId), events);
            && g.last == (if |passed| == 0 then None else Some(passed[|passed| - 1].eventType))
            && g.successes == TypesIn(passed)
            && (g.terminal <==> |passed| > 0 && passed[|passed| - 1].status in {"failure", "unknown"})
  {
    hide Accepts, BoundIds;
    var g := FreshGuard(transactionId);
    if |events| == 0 {
      assert TypesIn([]) == {};
    } else {
      var p, e := events[..|events| - 1], events[|events| - 1];
      StateOfPassed(transactionId, p);
      if Accepts(After(g, p), e) {
        TypesInSnoc(Passed(g, p), e);
      } else {
        RejectedChangesNothing(After(g, p), e);
      }
    }
  }

  lemma TypesInSnoc(events: seq<LifecycleEvent>, e: LifecycleEvent)
    ensures TypesIn(events + [e]) == TypesIn(events) + if e.status == "success" then {e.eventType} else {}
  {
    assert e in events + [e] && forall x :: x in events ==> x in events + [e];
  }

  const UPSTREAM: seq<EventType> :=
    [CheckoutStarted, CheckoutCompleted, PaymentCreated, PaymentSucceeded,
     AuthorizationRequested, AuthorizationSucceeded, CaptureRequested]

  lemma UpstreamInSuccesses(s: set<EventType>)
    requires Closed(s) && CaptureRequested in s
    ensures forall t :: t in UPSTREAM ==> t in s
  {
    assert Predecessor(CaptureRequested).value in s && Predecessor(AuthorizationSucceeded).value in s;
    assert Predecessor(AuthorizationRequested).value in s && Predecessor(PaymentSucceeded).value in s;
    assert Predecessor(PaymentCreated).value in s && Predecessor(CheckoutCompleted).value in s;
  }

  lemma AcceptedBehind(g: Guard, e: LifecycleEvent)
    requires Coherent(g) && Accepts(g, e) && Predecessor(e.eventType).Some?
    ensures Predecessor(e.eventType).value in g.successes
  {
    hide IdsFit;
  }

  /**
   Across any number of attempts: an accepted `capture_succeeded` comes after accepted
   success events of all seven steps before it.
   */
  lemma CaptureAfterAllSteps(transactionId: string, events: seq<LifecycleEvent>, i: nat, t: EventType)
    requires KnownStatuses(events) && i < |events| && t in UPSTREAM
    requires AcceptedAt(FreshGuard(transactionId), events, i) && events[i].eventType == CaptureSucceeded
    ensures exists j :: 0 <= j < i && SucceededAt(FreshGuard(transactionId), events, j, t)
  {
    hide Accepts, Applied, Coherent;
    var g := FreshGuard(transactionId);
    var p := events[..i];
    assert forall j :: 0 <= j < |p| ==> p[j] == events[j];
    FreshCoherent(transactionId);
    RunCoherent(g, p);
    AcceptedBehind(After(g, p), events[i]);
    ClosedOf(After(g, p));
    UpstreamInSuccesses(After(g, p).successes);
    SuccessesWereAccepted(g, p, t);
    var j :| 0 <= j < |p| && SucceededAt(g, p, j, t);
    assert p[..j] == events[..j];
    assert SucceededAt(g, events, j, t);
  }

  lemma FreshCoherent(transactionId: string)
    ensures Coherent(FreshGuard(transactionId))
  {
  }

  lemma ClosedOf(g: Guard)
    requires Coherent(g)
    ensures Closed(g.successes)
  {
  }

  // ---------- Chains of steps ----------

  datatype LifecycleStep = LifecycleStep(eventType: EventType, status: string)

  /** Each step follows its predecessor, and all but the last succeed. */
  predicate Chained(steps: seq<LifecycleStep>) {
    && (forall i :: 0 <= i < |steps| ==> IsLifecycle(steps[i].eventType))
    && (forall i :: 0 <= i < |steps| - 1 ==> steps[i].status !in {"failure", "unknown"})
    && (forall i :: 1 <= i < |steps| ==> Predecessor(steps[i].eventType) in {None, Some(steps[i - 1].eventType)})
  }

  function EventsOf(ids: Ids, attemptId: string, steps: seq<LifecycleStep>): seq<LifecycleEvent> {
    seq(|steps|, i requires 0 <= i < |steps| => LifecycleEvent(ids, steps[i].eventType, steps[i].status, attemptId))
  }

  predicate AllAccepted(g: Guard, events: seq<LifecycleEvent>) {
    forall i :: 0 <= i < |events| ==> AcceptedAt(g, events, i)
  }

  predicate Complete(ids: Ids) {
    ids.transactionId != "" && ids.orderId != "" && ids.paymentId != "" && ids.traceId != ""
  }

  lemma BoundToGiven(bound: Ids, given: Ids)
    requires IdsFit(bound, given)
    ensures BoundIds(bound, given, FIELDS) == given && IdsFit(given, given)
  {
    assert FieldFits(bound, given, 0) && FieldFits(bound, given, 1);
    assert FieldFits(bound, given, 2) && FieldFits(bound, given, 3);
    assert BoundIds(bound, given, 1) == WithField(bound, 0, given.transactionId);
    assert BoundIds(bound, given, 2) == WithField(BoundIds(bound, given, 1), 1, given.orderId);
    assert BoundIds(bound, given, 3) == WithField(BoundIds(bound, given, 2), 2, given.paymentId);
    assert BoundIds(bound, given, 4) == WithField(BoundIds(bound, given, 3), 3, given.traceId);
  }

  function SuccessTypes(steps: seq<LifecycleStep>): set<EventType> {
    set s | s in steps && s.status == "success" :: s.eventType
  }

  lemma SuccessTypesSnoc(steps: seq<LifecycleStep>, s: LifecycleStep)
    ensures SuccessTypes(steps + [s]) == SuccessTypes(steps) + (if s.status == "success" then {s.eventType} else {})
  {
    assert s in steps + [s];
    assert forall x :: x in steps ==> x in steps + [s];
  }

  /** A chain whose first step the guard accepts is accepted as a whole. */
  lemma {:induction false} ChainAccepted(g: Guard, ids: Ids, attemptId: string, steps: seq<LifecycleStep>)
    requires |steps| > 0 && Chained(steps) && attemptId != ""
    requires Accepts(g, LifecycleEvent(ids, steps[0].eventType, steps[0].status, attemptId))
    requires g.attemptId == "" || g.attemptId == attemptId || g.terminal
    ensures var g', last := After(g, EventsOf(ids, attemptId, steps)), steps[|steps| - 1];
            && AllAccepted(g, EventsOf(ids, attemptId, steps))
            && g' == Guard(ids, attemptId, Some(last.eventType), g.successes + SuccessTypes(steps),
                           last.status in {"failure", "unknown"})
    decreases |steps|
  {
    hide BoundIds, Accepts, SuccessTypes, Chained;
    var events := EventsOf(ids, attemptId, steps);
    var n := |steps| - 1;
    var p := steps[..n];
    assert steps == p + [steps[n]];
    assert events[..n] == EventsOf(ids, attemptId, p);
    SuccessTypesSnoc(p, steps[n]);
    ChainBegins(steps);
    if n == 0 {
      assert p == [] && SuccessTypes([]) == {} by {
        NoSuccessTypes();
      }
      assert events[..0] == [];
      FirstOfChain(g, events[0]);
      assert After(g, events) == Applied(g, events[0]);
    } else {
      ChainAccepted(g, ids, attemptId, p);
      AcceptedFits(g, LifecycleEvent(ids, steps[0].eventType, steps[0].status, attemptId));
      ChainGoesOn(After(g, events[..n]), events[n], steps);
      forall i | 0 <= i < |events|
        ensures AcceptedAt(g, events, i)
      {
        if i < n {
          assert AcceptedAt(g, events[..n], i) && events[..n][..i] == events[..i];
        }
      }
    }
  }

  lemma AcceptedFits(g: Guard, e: LifecycleEvent)
    requires Accepts(g, e)
    ensures IdsFit(g.ids, e.ids) && IdsFit(e.ids, e.ids)
  {
    hide BoundIds;
    BoundToGiven(g.ids, e.ids);
  }

  lemma NoSuccessTypes()
    ensures SuccessTypes([]) == {}
  {
  }

  lemma ChainBegins(steps: seq<LifecycleStep>)
    requires |steps| > 0 && Chained(steps)
    ensures Chained(steps[..|steps| - 1])
  {
  }

  lemma FirstOfChain(g: Guard, e: LifecycleEvent)
    requires Accepts(g, e) && e.attemptId != ""
    requires g.attemptId == "" || g.attemptId == e.attemptId || g.terminal
    ensures Applied(g, e) == Guard(e.ids, e.attemptId, Some(e.eventType),
                                   g.successes + (if e.status == "success" then {e.eventType} else {}),
                                   e.status in {"failure", "unknown"})
  {
    BoundToGiven(g.ids, e.ids);
  }

  lemma ChainGoesOn(g: Guard, e: LifecycleEvent, steps: seq<LifecycleStep>)
    requires |steps| > 1 && Chained(steps) && e.attemptId != ""
    requires var last, before := steps[|steps| - 1], steps[|steps| - 2];
             && e.eventType == last.eventType && e.status == last.status
             && g.ids == e.ids && g.attemptId == e.attemptId && g.last == Some(before.eventType)
             && g.terminal == (before.status in {"failure", "unknown"}) && IdsFit(e.ids, e.ids)
    ensures Accepts(g, e)
    ensures Applied(g, e) == Guard(e.ids, e.attemptId, Some(e.eventType),
                                   g.successes + (if e.status == "success" then {e.eventType} else {}),
                                   e.status in {"failure", "unknown"})
  {
    hide BoundIds, IdsFit;
    BoundToGiven(g.ids, e.ids);
    assert Predecessor(steps[|steps| - 1].eventType) in {None, Some(steps[|steps| - 2].eventType)};
  }

  // ---------- Statuses other than the three ----------

  function AllSteps(first: string): seq<LifecycleStep> {
    [LifecycleStep(CheckoutStarted, first), LifecycleStep(CheckoutCompleted, "success"),
     LifecycleStep(PaymentCreated, "success"), LifecycleStep(PaymentSucceeded, "success"),
     LifecycleStep(AuthorizationRequested, "success"), LifecycleStep(AuthorizationSucceeded, "success"),
     LifecycleStep(CaptureRequested, "success"), LifecycleStep(CaptureSucceeded, "success")]
  }

  /** A capture that is accepted although some step before it never succeeded. */
  ghost predicate SkipsAStep(events: seq<LifecycleEvent>, status: string) {
    && (forall i :: 0 <= i < |events| ==> events[i].status in OUTCOMES + {status})
    && exists tx, i, t :: 0 <= i < |events| && t in UPSTREAM && AcceptedAt(FreshGuard(tx), events, i)
                          && events[i].eventType == CaptureSucceeded
                          && forall j :: 0 <= j < i ==> !SucceededAt(FreshGuard(tx), events, j, t)
  }

  /**
   The guard does not check statuses. Allowing one more status beside the three breaks the
   guarantee exactly when it is a new one.
   */
  lemma StatusesMatter(status: string)
    ensures (exists events :: SkipsAStep(events, status)) <==> status !in OUTCOMES
  {
    hide AcceptedAt, SucceededAt;
    if events: seq<LifecycleEvent> :| SkipsAStep(events, status) {
      if status in OUTCOMES {
        var tx, i, t :| 0 <= i < |events| && t in UPSTREAM && AcceptedAt(FreshGuard(tx), events, i)
                        && events[i].eventType == CaptureSucceeded
                        && forall j :: 0 <= j < i ==> !SucceededAt(FreshGuard(tx), events, j, t);
        CaptureAfterAllSteps(tx, events, i, t);
      }
    }
    if status !in OUTCOMES {
      OddFirstStatus(status);
    }
  }

  function OddEvents(status: string): seq<LifecycleEvent> {
    EventsOf(Ids("t", "o", "p", "r"), "1", AllSteps(status))
  }

  lemma OddRun(status: string)
    requires status !in OUTCOMES
    ensures |OddEvents(status)| == 8 && AcceptedAt(FreshGuard("t"), OddEvents(status), 7)
  {
    hide Accepts, AcceptedAt, After, Chained;
    OddFirstAccepted(FreshGuard("t"), Ids("t", "o", "p", "r"), status);
    OddChained(status);
    ChainAccepted(FreshGuard("t"), Ids("t", "o", "p", "r"), "1", AllSteps(status));
  }

  lemma OddSteps(status: string)
    ensures |OddEvents(status)| == 8
    ensures var events := OddEvents(status);
            && events[0].status == status && events[7].eventType == CaptureSucceeded
            && forall i :: 1 <= i < 8 ==> events[i].status == "success" && events[i].eventType != CheckoutStarted
  {
  }

  lemma OddFirstStatus(status: string)
    requires status !in OUTCOMES
    ensures exists events :: SkipsAStep(events, status)
  {
    hide Accepts, AcceptedAt, After, OddEvents;
    OddRun(status);
    OddSteps(status);
    var g, events := FreshGuard("t"), OddEvents(status);
    assert UPSTREAM[0] == CheckoutStarted;
    assert CheckoutStarted in UPSTREAM;
    forall j | 0 <= j < 7
      ensures !SucceededAt(g, events, j, CheckoutStarted)
    {
    }
    hide SucceededAt;
    assert SkipsAStep(events, status);
  }

  lemma OddFirstAccepted(g: Guard, ids: Ids, status: string)
    requires g == FreshGuard("t") && ids == Ids("t", "o", "p", "r")
    ensures Accepts(g, LifecycleEvent(ids, CheckoutStarted, status, "1"))
  {
  }

  lemma OddChained(status: string)
    requires status !in {"failure", "unknown"}
    ensures Chained(AllSteps(status))
  {
    var steps := AllSteps(status);
    assert |steps| == 8;
    assert forall i :: 1 <= i < 8 ==> steps[i].status == "success";
    assert forall i :: 0 <= i < 8 ==> IsLifecycle(steps[i].eventType);
  }
}
