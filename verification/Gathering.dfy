/** Collecting the agents' beliefs in the order in which their threads finish. */
module Gathering {
  import opened Collections
  import opened Consensus
  import opened ArrivalOrder

  /** What an agent's call ends in: a belief, none, or an exception, which is only logged. */
  datatype Answer = Answered(belief: Belief) | NoBelief | Raised

  const INTENT_AGENT: string := "intent-agent"
  const FLOOR: real := 0.75

  /** On a failed checkout a vote to recover, or the intent agent's vote for nothing, asks for a payment link. */
  function Aligned(b: Belief): Belief {
    if b.recommendation == Recover || (b.agentId == INTENT_AGENT && b.recommendation == DoNothing) then
      b.(recommendation := SendPaymentLink,
         confidence := if b.agentId == INTENT_AGENT && b.confidence < FLOOR then FLOOR else b.confidence)
    else b
  }

  function Shaped(checkout: bool, b: Belief): Belief {
    if checkout then Aligned(b) else b
  }

  function Contribution(answers: map<string, Answer>, agent: string): seq<Belief> {
    if agent in answers && answers[agent].Answered? then [answers[agent].belief] else []
  }

  /** The beliefs of the agents that gave one, in the order of completion. */
  function Collected(answers: map<string, Answer>, order: seq<string>): seq<Belief> {
    if |order| == 0 then []
    else Collected(answers, order[..|order| - 1]) + Contribution(answers, order[|order| - 1])
  }

  function Shaping(checkout: bool): Belief -> Belief {
    (b: Belief) => Shaped(checkout, b)
  }

  function Gathered(answers: map<string, Answer>, order: seq<string>, checkout: bool): seq<Belief> {
    Map(Shaping(checkout), Collected(answers, order))
  }

  method GatherBeliefs(answers: map<string, Answer>, order: seq<string>, checkout: bool) returns (beliefs: seq<Belief>)
    requires forall a :: a in order ==> a in answers
    ensures beliefs == Gathered(answers, order, checkout)
  {
    beliefs := [];
    for i := 0 to |order|
      invariant beliefs == Collected(answers, order[..i])
    {
      assert order[..i + 1][..i] == order[..i];
      match answers[order[i]] {
        case Answered(b) => beliefs := beliefs + [b];
        case NoBelief =>
        case Raised =>
      }
    }
    assert order[..|order|] == order;
    beliefs := AlignCheckoutLinkVotes(beliefs, checkout);
  }

  method AlignCheckoutLinkVotes(beliefs: seq<Belief>, checkout: bool) returns (aligned: seq<Belief>)
    ensures aligned == Map(Shaping(checkout), beliefs)
  {
    if !checkout {
      return beliefs;
    }
    aligned := [];
    for i := 0 to |beliefs|
      invariant |aligned| == i && forall j :: 0 <= j < i ==> aligned[j] == Aligned(beliefs[j])
    {
      aligned := aligned + [Aligned(beliefs[i])];
    }
  }

  /** A vote that a failed checkout turns into one for a payment link. */
  predicate Turns(b: Belief) {
    b.recommendation == Recover || (b.agentId == "intent-agent" && b.recommendation == DoNothing)
  }

  /**
   Vote by vote: what was gathered asks for a link just where the agent asked for one or its vote
   turns; the intent agent's turned vote has a confidence of at least 0.75, and all else is as it was.
   */
  lemma GatheredTells(answers: map<string, Answer>, order: seq<string>, checkout: bool, k: nat)
    requires k < |Collected(answers, order)|
    ensures |Gathered(answers, order, checkout)| == |Collected(answers, order)|
    ensures var x, y := Collected(answers, order)[k], Gathered(answers, order, checkout)[k];
            && y == x.(recommendation := y.recommendation, confidence := y.confidence)
            && y.recommendation == (if checkout && Turns(x) then SendPaymentLink else x.recommendation)
            && (if checkout && Turns(x) && x.agentId == "intent-agent"
                then y.confidence == x.confidence >= 0.75 || y.confidence == 0.75 > x.confidence
                else y.confidence == x.confidence)
  {
    hide Collected;
  }

  /** No two answers are given in the name of one agent. */
  ghost predicate OwnNames(answers: map<string, Answer>) {
    forall a, b :: a in answers && b in answers && a != b && answers[a].Answered? && answers[b].Answered? ==>
                     answers[a].belief.agentId != answers[b].belief.agentId
  }

  predicate NoAgentTwice(order: seq<string>) {
    forall i, j :: 0 <= i < j < |order| ==> order[i] != order[j]
  }

  lemma {:induction false} CollectedFrom(answers: map<string, Answer>, order: seq<string>, b: Belief)
    ensures b in Collected(answers, order) ==>
              exists i :: 0 <= i < |order| && order[i] in answers && answers[order[i]] == Answered(b)
  {
    if |order| == 0 {
    } else {
      CollectedFrom(answers, order[..|order| - 1], b);
    }
  }

  lemma {:induction false} CollectedNames(answers: map<string, Answer>, order: seq<string>)
    requires OwnNames(answers) && NoAgentTwice(order)
    ensures DistinctAgents(Collected(answers, order))
  {
    if |order| == 0 {
    } else {
      var p, a := order[..|order| - 1], order[|order| - 1];
      CollectedNames(answers, p);
      var before := Collected(answers, p);
      forall i | 0 <= i < |before| && a in answers && answers[a].Answered?
        ensures before[i].agentId != answers[a].belief.agentId
      {
        assert before[i] in before;
        CollectedFrom(answers, p, before[i]);
        var k :| 0 <= k < |p| && p[k] in answers && answers[p[k]] == Answered(before[i]);
        assert order[k] != order[|order| - 1];
      }
    }
  }

  lemma ShapedNames(checkout: bool, beliefs: seq<Belief>)
    requires DistinctAgents(beliefs)
    ensures DistinctAgents(Map(Shaping(checkout), beliefs))
  {
    var r := Map(Shaping(checkout), beliefs);
    assert forall i :: 0 <= i < |r| ==> r[i].agentId == beliefs[i].agentId;
  }

  lemma CollectedConcat(answers: map<string, Answer>, a: seq<string>, b: seq<string>)
    ensures Collected(answers, a + b) == Collected(answers, a) + Collected(answers, b)
    decreases |b|
  {
    if |b| == 0 {
      assert a + b == a;
    } else {
      assert (a + b)[..|a + b| - 1] == a + b[..|b| - 1];
      CollectedConcat(answers, a, b[..|b| - 1]);
    }
  }

  lemma {:induction false} CollectedPermuted(answers: map<string, Answer>, a: seq<string>, b: seq<string>)
    requires multiset(a) == multiset(b)
    ensures multiset(Collected(answers, a)) == multiset(Collected(answers, b))
    decreases |a|
  {
    hide Contribution;
    if |a| == 0 {
      assert |b| == |multiset(b)| == |multiset(a)| == 0;
    } else {
      var i := FindLast(a, b);
      var x, p, l, r := a[|a| - 1], a[..|a| - 1], b[..i], b[i + 1..];
      CollectedPermuted(answers, p, l + r);
      CollectedConcat(answers, l, r);
      CollectedConcat(answers, l + [x], r);
      CollectedConcat(answers, l, [x]);
      assert [x][..0] == [];
      assert Collected(answers, [x]) == Contribution(answers, x);
      assert b == l + [x] + r;
    }
  }

  lemma GatheredPermuted(answers: map<string, Answer>, a: seq<string>, b: seq<string>, checkout: bool)
    requires multiset(a) == multiset(b)
    ensures multiset(Gathered(answers, a, checkout)) == multiset(Gathered(answers, b, checkout))
  {
    hide Collected, Map;
    CollectedPermuted(answers, a, b);
    MapPermutation(Shaping(checkout), Collected(answers, a), Collected(answers, b));
  }

  lemma GatheredNames(answers: map<string, Answer>, a: seq<string>, checkout: bool)
    requires OwnNames(answers) && NoAgentTwice(a)
    ensures DistinctAgents(Gathered(answers, a, checkout))
  {
    CollectedNames(answers, a);
    ShapedNames(checkout, Collected(answers, a));
  }

  /**
   However the agents' threads finish: with an undisturbed round the same decision, status,
   ratios, counts, standings and reasons come out, and the validator remembers the same.
   */
  lemma CompletionOrderIrrelevant(cfg: RecoveryConfig, m: Memory, answers: map<string, Answer>,
                                  a: seq<string>, b: seq<string>, checkout: bool, tx: string, version: int)
    requires OwnNames(answers) && NoAgentTwice(a) && multiset(a) == multiset(b)
    requires Undisturbed(cfg, m, Gathered(answers, a, checkout), tx, version)
    ensures var x, y := Gathered(answers, a, checkout), Gathered(answers, b, checkout);
            && SameOutcome(Aggregated(cfg, m, x, tx, version), Aggregated(cfg, m, y, tx, version))
            && MemoryAfter(cfg, m, x, tx, version) == MemoryAfter(cfg, m, y, tx, version)
  {
    hide Aggregated, MemoryAfter, SameOutcome, DistinctAgents, Undisturbed, Gathered;
    GatheredPermuted(answers, a, b, checkout);
    GatheredNames(answers, a, checkout);
    OrderOfArrival(cfg, m, Gathered(answers, a, checkout), Gathered(answers, b, checkout), tx, version);
  }

  lemma GatheredConcat(answers: map<string, Answer>, a: seq<string>, b: seq<string>, checkout: bool)
    ensures Gathered(answers, a + b, checkout) == Gathered(answers, a, checkout) + Gathered(answers, b, checkout)
  {
    hide Collected, Map;
    CollectedConcat(answers, a, b);
    MapConcat(Shaping(checkout), Collected(answers, a), Collected(answers, b));
  }

  lemma GatheredAlone(answers: map<string, Answer>, agent: string, x: Belief, checkout: bool)
    requires agent in answers && answers[agent] == Answered(x)
    ensures Gathered(answers, [agent], checkout) == [Shaped(checkout, x)]
  {
    assert [agent][..0] == [];
    assert Collected(answers, [agent]) == [x];
  }

  /** The place of an agent whose belief was gathered. */
  lemma PlaceOf(answers: map<string, Answer>, a: seq<string>, y: Belief, checkout: bool) returns (i: nat)
    requires y in Gathered(answers, a, checkout)
    ensures i < |a| && Gathered(answers, [a[i]], checkout) == [y]
  {
    var k :| 0 <= k < |Gathered(answers, a, checkout)| && Gathered(answers, a, checkout)[k] == y;
    var x := Collected(answers, a)[k];
    CollectedFrom(answers, a, x);
    i :| 0 <= i < |a| && a[i] in answers && answers[a[i]] == Answered(x);
    GatheredAlone(answers, a[i], x, checkout);
  }

  /** Every order of the gathered beliefs comes from some order of completion. */
  lemma {:induction false} Realised(answers: map<string, Answer>, a: seq<string>, beliefs: seq<Belief>, checkout: bool)
    returns (order: seq<string>)
    requires multiset(beliefs) == multiset(Gathered(answers, a, checkout))
    ensures multiset(order) == multiset(a) && Gathered(answers, order, checkout) == beliefs
    decreases |beliefs|
  {
    hide Gathered;
    var all := Gathered(answers, a, checkout);
    if |beliefs| == 0 {
      assert |all| == |multiset(all)| == 0;
      order := a;
    } else {
      var p, y := beliefs[..|beliefs| - 1], beliefs[|beliefs| - 1];
      assert beliefs == p + [y];
      assert y in multiset(all);
      var i := PlaceOf(answers, a, y, checkout);
      var l, r := a[..i], a[i + 1..];
      assert a == l + [a[i]] + r;
      GatheredConcat(answers, l + [a[i]], r, checkout);
      GatheredConcat(answers, l, [a[i]], checkout);
      GatheredConcat(answers, l, r, checkout);
      assert multiset(p) == multiset(beliefs) - multiset{y};
      var before := Realised(answers, l + r, p, checkout);
      order := before + [a[i]];
      GatheredConcat(answers, before, [a[i]], checkout);
    }
  }

  /**
   For agents that answer in names of their own, with votes that cannot end in an error: what
   comes out does not depend on which thread finishes when if and only if no belief that would
   be taken shares its id with another whose id is looked at.
   */
  lemma CompletionOrderIff(cfg: RecoveryConfig, m: Memory, answers: map<string, Answer>,
                           a: seq<string>, checkout: bool, tx: string, version: int)
    requires OwnNames(answers) && NoAgentTwice(a)
    requires forall x :: x in Gathered(answers, a, checkout) ==> x.recommendation in SAFETY
    ensures (forall b :: multiset(b) == multiset(a) ==>
                           SameOutcome(Aggregated(cfg, m, Gathered(answers, a, checkout), tx, version),
                                       Aggregated(cfg, m, Gathered(answers, b, checkout), tx, version)))
            <==> Undisturbed(cfg, m, Gathered(answers, a, checkout), tx, version)
  {
    hide Aggregated, SameOutcome, DistinctAgents, Undisturbed, Gathered;
    var x := Gathered(answers, a, checkout);
    GatheredNames(answers, a, checkout);
    OutcomeOrderIff(cfg, m, x, tx, version);
    if Undisturbed(cfg, m, x, tx, version) {
      forall b | multiset(b) == multiset(a)
        ensures SameOutcome(Aggregated(cfg, m, x, tx, version),
                            Aggregated(cfg, m, Gathered(answers, b, checkout), tx, version))
      {
        GatheredPermuted(answers, a, b, checkout);
      }
    }
    if forall b :: multiset(b) == multiset(a) ==>
        SameOutcome(Aggregated(cfg, m, x, tx, version),
                    Aggregated(cfg, m, Gathered(answers, b, checkout), tx, version)) {
      forall y | multiset(y) == multiset(x)
        ensures SameOutcome(Aggregated(cfg, m, x, tx, version), Aggregated(cfg, m, y, tx, version))
      {
        var b := Realised(answers, a, y, checkout);
      }
    }
  }

  lemma {:induction false} NoneRecovers(cfg: RecoveryConfig, valid: seq<Belief>)
    requires forall b :: b in valid ==> b.recommendation != Recover
    ensures Support(cfg, valid, Recover) == 0.0
  {
    if |valid| == 0 {
    } else {
      NoneRecovers(cfg, valid[..|valid| - 1]);
      assert valid[|valid| - 1] in valid;
    }
  }

  /** For a failed checkout nothing is left for the RECOVER merge to add: its support is zero. */
  lemma CheckoutLeavesNoRecover(cfg: RecoveryConfig, m: Memory, answers: map<string, Answer>, order: seq<string>,
                                tx: string, version: int)
    ensures var beliefs := Gathered(answers, order, true);
            var valid := ValidOnes(beliefs, Verdicts(cfg, m, beliefs, tx, version));
            Support(cfg, valid, Recover) == 0.0 && Ratio(cfg, valid, Recover) == 0.0
  {
    hide Verdicts, ValidOnes, Support, Collected;
    var beliefs := Gathered(answers, order, true);
    var verdicts := Verdicts(cfg, m, beliefs, tx, version);
    ValidAmong(beliefs, verdicts);
    NoneRecovers(cfg, ValidOnes(beliefs, verdicts));
  }
}
