/** The belief validator over many rounds: its memory outlives the transaction it was filled for. */
module ValidatorRuns {
  import opened Collections
  import opened BatchIds
  import opened Consensus

  /** One call of `aggregate`, as far as the validator is concerned. */
  datatype Round = Round(transactionId: string, version: int, beliefs: seq<Belief>)

  /** One belief with what it is checked against. */
  datatype Presented = Presented(belief: Belief, transactionId: string, version: int)

  const UNTOUCHED: Memory := Memory({}, map[], {})

  function OverRounds(cfg: RecoveryConfig, rounds: seq<Round>): Memory {
    if |rounds| == 0 then UNTOUCHED
    else
      var last := rounds[|rounds| - 1];
      MemoryAfter(cfg, OverRounds(cfg, rounds[..|rounds| - 1]), last.beliefs, last.transactionId, last.version)
  }

  function PresentedIn(r: Round): seq<Presented> {
    seq(|r.beliefs|, i requires 0 <= i < |r.beliefs| => Presented(r.beliefs[i], r.transactionId, r.version))
  }

  function History(rounds: seq<Round>): seq<Presented> {
    if |rounds| == 0 then [] else History(rounds[..|rounds| - 1]) + PresentedIn(rounds[|rounds| - 1])
  }

  function Over(cfg: RecoveryConfig, m: Memory, h: seq<Presented>): Memory {
    if |h| == 0 then m
    else
      var last := h[|h| - 1];
      Remembered(cfg, Over(cfg, m, h[..|h| - 1]), last.belief, last.transactionId, last.version)
  }

  lemma {:induction false} OverConcat(cfg: RecoveryConfig, m: Memory, a: seq<Presented>, b: seq<Presented>)
    ensures Over(cfg, m, a + b) == Over(cfg, Over(cfg, m, a), b)
  {
    hide Remembered;
    if |b| == 0 {
      assert a + b == a;
    } else {
      assert (a + b)[..|a + b| - 1] == a + b[..|b| - 1];
      OverConcat(cfg, m, a, b[..|b| - 1]);
    }
  }

  lemma {:induction false} RoundIsHistory(cfg: RecoveryConfig, m: Memory, r: Round)
    ensures MemoryAfter(cfg, m, r.beliefs, r.transactionId, r.version) == Over(cfg, m, PresentedIn(r))
    decreases |r.beliefs|
  {
    hide Remembered;
    if |r.beliefs| == 0 {
    } else {
      var shorter := r.(beliefs := r.beliefs[..|r.beliefs| - 1]);
      RoundIsHistory(cfg, m, shorter);
      assert PresentedIn(r)[..|r.beliefs| - 1] == PresentedIn(shorter);
    }
  }

  lemma {:induction false} RoundsAreHistory(cfg: RecoveryConfig, rounds: seq<Round>)
    ensures OverRounds(cfg, rounds) == Over(cfg, UNTOUCHED, History(rounds))
  {
    hide MemoryAfter, Over;
    if |rounds| == 0 {
      NothingPresented(cfg);
    } else {
      var p, r := rounds[..|rounds| - 1], rounds[|rounds| - 1];
      RoundsAreHistory(cfg, p);
      OverConcat(cfg, UNTOUCHED, History(p), PresentedIn(r));
      RoundIsHistory(cfg, OverRounds(cfg, p), r);
    }
  }

  lemma NothingPresented(cfg: RecoveryConfig)
    ensures Over(cfg, UNTOUCHED, []) == UNTOUCHED
  {
  }

  // ---------- Quarantine is two faults ----------

  predicate IsFor(x: Presented, agent: string) {
    x.belief.agentId == agent && Fits(x.belief, x.transactionId, x.version)
  }

  /** How many fitting beliefs of an agent had something wrong with them when they came. */
  function FaultCount(cfg: RecoveryConfig, h: seq<Presented>, agent: string): nat {
    if |h| == 0 then 0
    else
      var p, x := h[..|h| - 1], h[|h| - 1];
      FaultCount(cfg, p, agent)
      + if IsFor(x, agent) && Fault(cfg, Over(cfg, UNTOUCHED, p), x.belief).Some? then 1 else 0
  }

  lemma {:induction false} FaultsAreCounted(cfg: RecoveryConfig, h: seq<Presented>, agent: string)
    ensures var m, n := Over(cfg, UNTOUCHED, h), FaultCount(cfg, h, agent);
            && (agent in m.quarantined <==> n >= 2)
            && (n < 2 ==> BadCount(m, agent) == n)
  {
    hide Fault, Fits;
    if |h| == 0 {
    } else {
      FaultsAreCounted(cfg, h[..|h| - 1], agent);
    }
  }

  /** Over any rounds: an agent is quarantined if and only if two of its fitting beliefs were faulty. */
  lemma QuarantinedIff(cfg: RecoveryConfig, rounds: seq<Round>, agent: string)
    ensures agent in OverRounds(cfg, rounds).quarantined <==> FaultCount(cfg, History(rounds), agent) >= 2
  {
    RoundsAreHistory(cfg, rounds);
    FaultsAreCounted(cfg, History(rounds), agent);
  }

  // ---------- Healthy agents with repeating ids ----------

  /** A belief that nothing but its id can be held against. */
  predicate WellFormed(cfg: RecoveryConfig, b: Belief) {
    b.agentId in cfg.agentWeights && 0.0 <= b.confidence <= 1.0 && b.evidenceIsDict && b.timestamp != ""
  }

  predicate Healthy(cfg: RecoveryConfig, h: seq<Presented>, agent: string) {
    forall i :: 0 <= i < |h| && IsFor(h[i], agent) ==> WellFormed(cfg, h[i].belief)
  }

  /** No other agent uses an id of this one. */
  predicate OwnIds(h: seq<Presented>, agent: string) {
    forall i, j :: 0 <= i < |h| && 0 <= j < |h| && h[i].belief.agentId == agent && h[j].belief.agentId != agent ==>
                     h[i].belief.beliefId != h[j].belief.beliefId
  }

  /** The ids of an agent's fitting beliefs, in order. */
  function IdsFor(h: seq<Presented>, agent: string): seq<string> {
    if |h| == 0 then []
    else
      var p, x := h[..|h| - 1], h[|h| - 1];
      IdsFor(p, agent) + if IsFor(x, agent) then [x.belief.beliefId] else []
  }

  function Among(ids: seq<string>): set<string> {
    set x | x in ids
  }

  lemma AmongSnoc(ids: seq<string>, x: string)
    ensures Among(ids + [x]) == Among(ids) + {x}
    ensures |Among(ids + [x])| == |Among(ids)| + if x in ids then 0 else 1
  {
    assert x in ids + [x] && forall y :: y in ids ==> y in ids + [x];
    if x in ids {
      assert Among(ids) + {x} == Among(ids);
    }
  }

  function Repeats(ids: seq<string>): int {
    |ids| - |Among(ids)|
  }

  /** What the validator has seen is an id of this agent's fitting beliefs or another agent's. */
  predicate SeenFrom(m: Memory, h: seq<Presented>, agent: string) {
    forall id :: id in m.seen ==>
      id in IdsFor(h, agent) || exists j :: 0 <= j < |h| && h[j].belief.agentId != agent && h[j].belief.beliefId == id
  }

  lemma {:induction false} SeenIsPresented(cfg: RecoveryConfig, h: seq<Presented>, agent: string)
    ensures SeenFrom(Over(cfg, UNTOUCHED, h), h, agent)
  {
    hide Fault, BadCount;
    if |h| == 0 {
    } else {
      var p, x := h[..|h| - 1], h[|h| - 1];
      SeenIsPresented(cfg, p, agent);
      forall id | id in Over(cfg, UNTOUCHED, h).seen
        ensures id in IdsFor(h, agent)
                || exists j :: 0 <= j < |h| && h[j].belief.agentId != agent && h[j].belief.beliefId == id
      {
        if id in Over(cfg, UNTOUCHED, p).seen && id !in IdsFor(p, agent) {
          var j :| 0 <= j < |p| && p[j].belief.agentId != agent && p[j].belief.beliefId == id;
          assert h[j] == p[j];
        } else if id !in Over(cfg, UNTOUCHED, p).seen && x.belief.agentId != agent {
          assert h[|p|].belief.beliefId == id;
        }
      }
    }
  }

  /** How an agent's repeated ids show in the validator's memory. */
  predicate Tracks(m: Memory, agent: string, ids: seq<string>) {
    && (agent in m.quarantined <==> Repeats(ids) >= 2)
    && (agent !in m.quarantined ==> BadCount(m, agent) == Repeats(ids) && forall id :: id in ids ==> id in m.seen)
  }

  lemma RepeatStep(cfg: RecoveryConfig, m: Memory, ids: seq<string>, x: Presented, agent: string)
    requires Tracks(m, agent, ids) && IsFor(x, agent) && WellFormed(cfg, x.belief)
    requires x.belief.beliefId in m.seen ==> x.belief.beliefId in ids
    ensures Tracks(Remembered(cfg, m, x.belief, x.transactionId, x.version), agent, ids + [x.belief.beliefId])
  {
    var id := x.belief.beliefId;
    AmongSnoc(ids, id);
    OnlyItsId(cfg, m, x.belief);
    hide Among, WellFormed, Fault;
    assert Repeats(ids + [id]) == Repeats(ids) + if id in ids then 1 else 0;
  }

  lemma OthersStep(cfg: RecoveryConfig, m: Memory, ids: seq<string>, x: Presented, agent: string)
    requires Tracks(m, agent, ids) && !IsFor(x, agent)
    ensures Tracks(Remembered(cfg, m, x.belief, x.transactionId, x.version), agent, ids)
  {
    hide Among, Fault;
  }

  lemma {:induction false} RepeatsAreFaults(cfg: RecoveryConfig, h: seq<Presented>, agent: string)
    requires Healthy(cfg, h, agent) && OwnIds(h, agent)
    ensures Tracks(Over(cfg, UNTOUCHED, h), agent, IdsFor(h, agent))
  {
    hide IsFor, WellFormed, Tracks, Remembered;
    if |h| == 0 {
      NothingTracked(agent);
    } else {
      var p, x := h[..|h| - 1], h[|h| - 1];
      assert forall i :: 0 <= i < |p| ==> p[i] == h[i];
      RepeatsAreFaults(cfg, p, agent);
      if IsFor(x, agent) {
        assert WellFormed(cfg, h[|h| - 1].belief);
        IdIsFresh(cfg, h, agent);
        RepeatStep(cfg, Over(cfg, UNTOUCHED, p), IdsFor(p, agent), x, agent);
      } else {
        assert IdsFor(h, agent) == IdsFor(p, agent);
        OthersStep(cfg, Over(cfg, UNTOUCHED, p), IdsFor(p, agent), x, agent);
      }
    }
  }

  lemma NothingTracked(agent: string)
    ensures Tracks(UNTOUCHED, agent, [])
  {
    NoRepeats();
  }

  lemma NoRepeats()
    ensures Repeats([]) == 0
  {
    assert Among([]) == {};
  }

  lemma OnlyItsId(cfg: RecoveryConfig, m: Memory, b: Belief)
    requires WellFormed(cfg, b)
    ensures Fault(cfg, m, b) == if b.beliefId in m.seen then Some(DuplicateBelief) else None
  {
  }

  lemma IdIsFresh(cfg: RecoveryConfig, h: seq<Presented>, agent: string)
    requires |h| > 0 && OwnIds(h, agent) && IsFor(h[|h| - 1], agent)
    ensures var p, id := h[..|h| - 1], h[|h| - 1].belief.beliefId;
            id in Over(cfg, UNTOUCHED, p).seen ==> id in IdsFor(p, agent)
  {
    var p := h[..|h| - 1];
    SeenIsPresented(cfg, p, agent);
    assert forall j :: 0 <= j < |p| ==> p[j] == h[j];
  }

  /**
   Over any rounds, an agent that sends well-formed beliefs under ids of its own is quarantined
   if and only if at least two of them repeated an id, whatever transaction they were for.
   */
  lemma RepeatedIdsIff(cfg: RecoveryConfig, rounds: seq<Round>, agent: string)
    requires Healthy(cfg, History(rounds), agent) && OwnIds(History(rounds), agent)
    ensures agent in OverRounds(cfg, rounds).quarantined <==> Repeats(IdsFor(History(rounds), agent)) >= 2
  {
    RoundsAreHistory(cfg, rounds);
    RepeatsAreFaults(cfg, History(rounds), agent);
  }

  /** The id the coordinator gives its own stand-in for an agent it cannot reach. */
  function LocalId(prefix: string, version: nat): string {
    prefix + Decimal(version)
  }

  lemma {:induction false} AllTheSame(ids: seq<string>, id: string)
    requires |ids| > 0 && forall i :: 0 <= i < |ids| ==> ids[i] == id
    ensures |Among(ids)| == 1
  {
    assert ids[0] in ids;
    assert Among(ids) == {id};
  }

  /**
   The stand-in uses the state version alone as its id. So with transactions at one version,
   however healthy its beliefs, it is quarantined if and only if this is its third.
   */
  lemma StandInQuarantinedIff(cfg: RecoveryConfig, rounds: seq<Round>, agent: string, prefix: string, version: nat)
    requires Healthy(cfg, History(rounds), agent) && OwnIds(History(rounds), agent)
    requires forall id :: id in IdsFor(History(rounds), agent) ==> id == LocalId(prefix, version)
    ensures agent in OverRounds(cfg, rounds).quarantined <==> |IdsFor(History(rounds), agent)| >= 3
  {
    var ids := IdsFor(History(rounds), agent);
    RepeatedIdsIff(cfg, rounds, agent);
    if |ids| == 0 {
      NoRepeats();
    } else {
      assert forall i :: 0 <= i < |ids| ==> ids[i] in ids;
      AllTheSame(ids, LocalId(prefix, version));
    }
  }
}
