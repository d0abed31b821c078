/** What a stored recovery state says of the candidates that came for its transaction. */
module StoredStories {
  import opened Collections
  import Consensus
  import Pipeline
  import opened StateStore

  // ---------- The candidates that changed a state ----------

  /** In order, the candidates that changed a transaction's state. */
  function Changing(t: string, ops: seq<Op>, replies: seq<Reply>): seq<Candidate>
    requires |ops| == |replies|
  {
    if |ops| == 0 then []
    else
      var n := |ops| - 1;
      Changing(t, ops[..n], replies[..n]) + (if Changes(t, ops[n], replies[n]) then [ops[n].event] else [])
  }

  /** The status of a transaction that came through. */
  predicate CameThrough(status: string) {
    || status == "success" || status == "succeeded" || status == "captured"
    || status == "settled" || status == "recovered"
  }

  /** Only the last candidate may close a state; any other one begins it anew. */
  predicate Closes(changing: seq<Candidate>) {
    |changing| > 1 && CameThrough(changing[|changing| - 1].status)
  }

  /** The candidate that began the state as it is. */
  function Opener(changing: seq<Candidate>): Candidate
    requires |changing| > 0
  {
    changing[|changing| - if Closes(changing) then 2 else 1]
  }

  function StatusOf(e: Candidate): string {
    if e.status != "" then e.status else e.transactionStatus
  }

  predicate Records(r: LifecycleRecord, e: Candidate) {
    && r.eventId == e.eventId && r.eventType == e.eventType && r.stage == e.stage
    && r.status == e.status && r.failureCode == e.failureCode && r.timestamp == e.timestamp
  }

  /** Where the state stands is told by the last candidate, and what it is about by the one that began it. */
  predicate Tells(s: RecoveryState, changing: seq<Candidate>)
    requires |changing| > 0
  {
    var last, opener := changing[|changing| - 1], Opener(changing);
    && s.version == |changing| && s.lastEventId == last.eventId
    && s.stage == last.stage && s.failureCode == last.failureCode && s.transactionStatus == StatusOf(last)
    && s.identity == opener.identity
    && s.amountAtRisk == (if opener.amount != 0.0 then opener.amount else opener.amountAtRisk)
    && |s.lifecycle| == (if Closes(changing) then 2 else 1)
    && Records(s.lifecycle[0], opener) && Records(s.lifecycle[|s.lifecycle| - 1], last)
    && (s.status == CandidateReceived ==> !Closes(changing))
  }

  ghost predicate AllTold(m: MemoryStore, t: string, changing: seq<Candidate>) {
    && (t in m.states <==> |changing| > 0)
    && (t in m.states ==> Tells(m.states[t], changing))
  }

  lemma FinalIff(status: string)
    ensures CameThrough(status) <==> status in FINAL
  {
  }

  lemma NewTells(e: Candidate, existing: Option<RecoveryState>, before: seq<Candidate>)
    requires existing.Some? <==> |before| > 0
    requires existing.Some? ==> Tells(existing.value, before) && !CameThrough(e.status)
    ensures Tells(NewState(e, existing), before + [e])
  {
    hide CameThrough;
    assert (before + [e])[|before|] == e;
  }

  lemma SucceededTells(e: Candidate, s: RecoveryState, before: seq<Candidate>)
    requires |before| > 0 && Tells(s, before) && !Finished(s) && CameThrough(e.status)
    ensures Tells(SucceededState(e, s), before + [e])
  {
    hide CameThrough, FINAL;
    var after := before + [e];
    assert after[|before|] == e && after[|before| - 1] == before[|before| - 1];
    FinalIff(e.status);
    FinalIff(before[|before| - 1].status);
    assert e.status != "" by {
      NotEmpty(e.status);
    }
    assert !Closes(before) by {
      if Closes(before) {
        NotEmpty(before[|before| - 1].status);
      }
    }
  }

  lemma NotEmpty(status: string)
    requires CameThrough(status)
    ensures status != ""
  {
  }

  lemma StepTold(m: MemoryStore, t: string, changing: seq<Candidate>, op: Op)
    requires AllTold(m, t, changing)
    ensures var (m', reply) := MemoryStep(m, op);
            AllTold(m', t, changing + (if Changes(t, op, reply) then [op.event] else []))
  {
    hide NewState, SucceededState, Tells, FINAL, RecordOf;
    match op {
      case Upsert(e) =>
        if e.transactionId == t {
          FinalIff(e.status);
          var existing := Lookup(m.states, t);
          if existing.Some? && Finished(existing.value) {
          } else if existing.Some? && e.status in FINAL {
            SucceededTells(e, existing.value, changing);
          } else if e.eventId !in m.eventIds {
            NewTells(e, existing, changing);
          }
        }
      case SaveBeliefs(u, beliefs) =>
        if u == t && t in m.states {
          BeliefsKeep(m.states[t], changing, Some(beliefs));
        }
      case Apply(u, r, at) =>
        if u == t && t in m.states {
          ResultKeeps(m.states[t], changing, r, at);
        }
    }
    assert changing + [] == changing;
  }

  lemma BeliefsKeep(s: RecoveryState, changing: seq<Candidate>, beliefs: Option<seq<Consensus.Belief>>)
    requires |changing| > 0 && Tells(s, changing)
    ensures Tells(s.(beliefs := beliefs), changing)
  {
  }

  lemma ResultKeeps(s: RecoveryState, changing: seq<Candidate>, r: Pipeline.PipelineResult, at: string)
    requires |changing| > 0 && Tells(s, changing)
    ensures Tells(AppliedState(s, r, at), changing)
  {
  }

  /**
   After any operations, whatever beliefs and results were stored in between, a state tells the
   story of the candidates that changed it.
   */
  lemma {:induction false} StoriesTold(ops: seq<Op>, t: string)
    ensures var (m, replies) := MemoryRun(EMPTY_STORE, ops);
            var changing := Changing(t, ops, replies);
            && (t in m.states <==> |changing| > 0)
            && (t in m.states ==> Tells(m.states[t], changing))
  {
    hide MemoryStep, Tells, Changes;
    if |ops| == 0 {
    } else {
      var n := |ops| - 1;
      StoriesTold(ops[..n], t);
      var (m, replies) := MemoryRun(EMPTY_STORE, ops[..n]);
      StepTold(m, t, Changing(t, ops[..n], replies), ops[n]);
      assert MemoryRun(EMPTY_STORE, ops).1[..n] == replies;
    }
  }

  /** The same of Redis, where no event id is used for two transactions. */
  lemma StoriesToldInRedis(owner: string -> string, ops: seq<Op>, t: string)
    requires Owned(owner, ops)
    ensures var (r, replies) := RedisRun(EMPTY_REDIS, ops);
            var changing := Changing(t, ops, replies);
            && (t in r.states <==> |changing| > 0)
            && (t in r.states ==> Tells(r.states[t], changing))
  {
    hide MemoryStep, RedisStep, Tells, Changes, Alike;
    StoresSimulate(owner, ops);
    StoriesTold(ops, t);
  }
}
