/** Which of two conflicting requests can commit, and why somebody always can. */
module Exclusion {
  import opened Names
  import opened Messages
  import opened Conflicts
  import opened Responses
  import opened Replication
  import opened ReplicationInvariant
  import opened ReplicationSteps
  import opened ReplicationSafety
  import opened ReplicationTheorems

  // ---------------------------------------------------------------- conditional exclusion

  /** The host holds the request of `t` in its registry. */
  ghost predicate Holds(host: Host, t: Tid) {
    t in ViewOf(host) && ViewOf(host)[t].request.Some?
  }

  /** The Replicate call for `t` runs at this host and has not deleted its entry. */
  ghost predicate Live(host: Host, t: Tid) {
    exists i :: 0 <= i < |host.txs| && host.txs[i].owner.Replicator? && host.txs[i].data.tid == t
             && !host.txs[i].phase.Deleted?
  }

  lemma LiveHolds(s: State, h: Name, t: Tid)
    requires Inv(s) && h in s.hosts && Live(s.hosts[h], t)
    ensures Holds(s.hosts[h], t)
  {
    hide NetInv, TxInv, ListenerInv, HostLink;
    var host := s.hosts[h];
    var i :| 0 <= i < |host.txs| && host.txs[i].owner.Replicator? && host.txs[i].data.tid == t
          && !host.txs[i].phase.Deleted?;
    TxFacts(s, h, i);
    assert Owned(host);
  }

  /** Holding a request means holding it as it was issued. */
  lemma HeldAsIssued(s: State, h: Name, t: Tid)
    requires Inv(s) && h in s.hosts && Holds(s.hosts[h], t)
    ensures t in s.started
    ensures Issued(ViewOf(s.hosts[h])[t].initiatorName, ViewOf(s.hosts[h])[t].request.value) == s.started[t]
  {
    hide NetInv, TxInv, ListenerInv, HostLink;
    assert Owned(s.hosts[h]);
    TxFacts(s, h, s.hosts[h].registry[t]);
  }

  /** `step` is a vote of `h` on the transaction `t`. */
  predicate VotesOn(s: State, step: Step, h: Name, t: Tid) {
    && step.Vote? && step.host == h && HasTx(s, h, step.inc)
    && s.hosts[h].txs[step.inc].data.tid == t
  }

  /** A host that holds a winning request votes NACK on the loser. */
  lemma HolderRefuses(s: State, step: Step, h: Name, winner: Tid, loser: Tid)
    requires Inv(s) && Enabled(s, step) && VotesOn(s, step, h, loser) && Holds(s.hosts[h], winner)
    requires winner in s.started && loser in s.started && Beats(s.started[winner], s.started[loser])
    ensures loser !in s.hosts[h].votes && h in Apply(s, step).hosts
    ensures loser in Apply(s, step).hosts[h].votes && Apply(s, step).hosts[h].votes[loser].NACK?
  {
    hide Inv, Beats;
    VoteIsNew(s, step);
    HeldAsIssued(s, h, winner);
    var tx := s.hosts[h].txs[step.inc];
    assert Refuses(ViewOf(s.hosts[h])[winner], tx.arrived[tx.consumed - 1]);
  }

  /** If any host votes on a request while it holds a conflicting one of higher
      priority, the lower one commits nowhere, ever. */
  lemma ConditionalExclusion(r: Run, k: nat, h: Name, winner: Tid, loser: Tid, m: nat, g: Name, j: nat)
    requires IsRun(r) && k < |r.steps| && m < |r.states|
    requires VotesOn(r.states[k], r.steps[k], h, loser) && Holds(r.states[k].hosts[h], winner)
    requires winner in r.states[k].started && loser in r.states[k].started
    requires Beats(r.states[k].started[winner], r.states[k].started[loser])
    requires HasTx(r.states[m], g, j) && r.states[m].hosts[g].txs[j].data.tid == loser
    ensures !Committed(r.states[m].hosts[g].txs[j])
  {
    hide Inv, Enabled, Apply, Initial, Holds, Beats, Committed;
    RunInv(r, k);
    assert Taken(r.states[k], r.steps[k], r.states[k + 1]);
    HolderRefuses(r.states[k], r.steps[k], h, winner, loser);
    OneNackExcludes(r, k + 1, h, loser, m, g, j);
  }

  /** One NACK, and no owner of the transaction commits, before or after. */
  lemma OneNackExcludes(r: Run, k: nat, h: Name, t: Tid, m: nat, g: Name, j: nat)
    requires IsRun(r) && k < |r.states| && m < |r.states|
    requires h in r.states[k].hosts && t in r.states[k].hosts[h].votes && r.states[k].hosts[h].votes[t].NACK?
    requires HasTx(r.states[m], g, j) && r.states[m].hosts[g].txs[j].data.tid == t
    ensures !Committed(r.states[m].hosts[g].txs[j])
  {
    hide Inv, IsRun, Grows, Committed, AllVotedAck;
    if Committed(r.states[m].hosts[g].txs[j]) {
      Unanimity(r, m, g, j);
      RunInv(r, k);
      VoterIsNotInitiator(r.states[k], h, t);
      SameInitiator(r, k, m, t, h);
      if m <= k {
        RunGrows(r, m, k);
        VotesAreKept(r.states[m], r.states[k], h, t);
      } else {
        RunGrows(r, k, m);
        VotesAreKept(r.states[k], r.states[m], h, t);
      }
    }
  }

  lemma VotesAreKept(s: State, s': State, h: Name, t: Tid)
    requires Grows(s, s') && h in s.hosts
    ensures h in s'.hosts
    ensures t in s.hosts[h].votes ==> t in s'.hosts[h].votes && s'.hosts[h].votes[t] == s.hosts[h].votes[t]
  {
    assert HostGrows(s.hosts[h], s'.hosts[h]);
  }

  /** A unanimous vote includes the one of `h`, who is not the initiator. */
  lemma SameInitiator(r: Run, k: nat, m: nat, t: Tid, h: Name)
    requires IsRun(r) && k < |r.states| && m < |r.states|
    requires t in r.states[k].started && r.states[k].started[t].initiator != h && h in r.states[k].hosts
    requires AllVotedAck(r.states[m], t)
    ensures h in r.states[m].hosts && t in r.states[m].hosts[h].votes && r.states[m].hosts[h].votes[t] == ACK
  {
    hide IsRun, HostGrows;
    if m <= k { RunGrows(r, m, k); } else { RunGrows(r, k, m); }
  }

  /** Votes come from vote steps. */
  lemma OnlyVotesVote(s: State, step: Step, h: Name, t: Tid)
    requires Enabled(s, step) && h in s.hosts && h in Apply(s, step).hosts
    requires t !in s.hosts[h].votes && t in Apply(s, step).hosts[h].votes
    ensures VotesOn(s, step, h, t)
  {
    hide InConflict, HasNack;
  }

  lemma {:induction false} VoteHappened(r: Run, m: nat, h: Name, t: Tid) returns (k: nat)
    requires IsRun(r) && m < |r.states| && h in r.states[m].hosts && t in r.states[m].hosts[h].votes
    ensures k < m && k < |r.steps| && VotesOn(r.states[k], r.steps[k], h, t)
    ensures h in r.states[k + 1].hosts && t in r.states[k + 1].hosts[h].votes
    ensures r.states[k + 1].hosts[h].votes[t] == r.states[m].hosts[h].votes[t]
  {
    hide Inv, Enabled, Apply, Grows, VotesOn;
    if m == 0 {
      assert false;
    } else {
      RunInv(r, m - 1);
      assert Taken(r.states[m - 1], r.steps[m - 1], r.states[m]);
      StepGrows(r.states[m - 1], r.steps[m - 1]);
      SameHosts(r.states[m - 1], r.states[m], h);
      if t in r.states[m - 1].hosts[h].votes {
        VotesAreKept(r.states[m - 1], r.states[m], h, t);
        k := VoteHappened(r, m - 1, h, t);
      } else {
        OnlyVotesVote(r.states[m - 1], r.steps[m - 1], h, t);
        k := m - 1;
      }
    }
  }

  lemma SameHosts(s: State, s': State, h: Name)
    requires Grows(s, s') && h in s'.hosts
    ensures h in s.hosts
  {
  }

  /** If two conflicting requests both commit, the winner's initiator did vote on
      the loser, at a moment when its own request was not registered. */
  lemma BothCommitted(r: Run, m: nat, winner: Tid, loser: Tid, g: Name, i: nat, g': Name, i': nat) returns (k: nat)
    requires IsRun(r) && m < |r.states|
    requires HasTx(r.states[m], g, i) && HasTx(r.states[m], g', i')
    requires r.states[m].hosts[g].txs[i].data.tid == winner && Committed(r.states[m].hosts[g].txs[i])
    requires r.states[m].hosts[g'].txs[i'].data.tid == loser && Committed(r.states[m].hosts[g'].txs[i'])
    requires winner in r.states[m].started && loser in r.states[m].started
    requires Beats(r.states[m].started[winner], r.states[m].started[loser])
    ensures var a := r.states[m].started[winner].initiator;
            && k < m && k < |r.steps| && a in r.states[k].hosts
            && VotesOn(r.states[k], r.steps[k], a, loser)
            && !Live(r.states[k].hosts[a], winner)
  {
    hide Inv, Enabled, Apply, Grows, Live, Committed, VotesOn, Initial;
    var a := r.states[m].started[winner].initiator;
    RunInv(r, m);
    Unanimity(r, m, g', i');
    InitiatorExists(r.states[m], winner);
    k := VoteHappened(r, m, a, loser);
    RunGrows(r, k, m);
    SameHosts(r.states[k], r.states[m], a);
    if Live(r.states[k].hosts[a], winner) {
      RunInv(r, k);
      LiveHolds(r.states[k], a, winner);
      HeldAsIssued(r.states[k], a, winner);
      VotedOnIsStarted(r, k, a, loser);
      StartedIsKept(r.states[k], r.states[m], winner, loser);
      ConditionalExclusion(r, k, a, winner, loser, m, g', i');
    }
  }

  lemma VotedOnIsStarted(r: Run, k: nat, h: Name, t: Tid)
    requires IsRun(r) && k < |r.steps| && VotesOn(r.states[k], r.steps[k], h, t)
    ensures t in r.states[k].started
  {
    hide Inv, Enabled, Apply, Initial;
    RunInv(r, k);
    TxFacts(r.states[k], h, r.steps[k].inc);
  }

  lemma StartedIsKept(s: State, s': State, t: Tid, u: Tid)
    requires Grows(s, s') && t in s.started && u in s.started
    ensures t in s'.started && s'.started[t] == s.started[t]
    ensures u in s'.started && s'.started[u] == s.started[u]
  {
    hide HostGrows;
  }

  // ---------------------------------------------------------------- acyclic refusals

  /** The Replicate call for `t` was refused before it broadcast. */
  predicate LostLocally(tx: Tx, t: Tid) {
    tx.data.tid == t && EndedWith(tx, Conflict)
  }

  /** Every conflict refusal, local or by vote, points to an issued request of
      another peer with strictly higher priority on the same path pair. */
  lemma RefusalsPointUp(r: Run, k: nat, h: Name, t: Tid)
    requires IsRun(r) && k < |r.states| && h in r.states[k].hosts
    requires
      || (t in r.states[k].hosts[h].votes && r.states[k].hosts[h].votes[t] == NACK(ERR_TRANSACTION_CONFLICT))
      || (exists i :: 0 <= i < |r.states[k].hosts[h].txs| && LostLocally(r.states[k].hosts[h].txs[i], t))
    ensures t in r.states[k].started && Beaten(r.states[k].started, t)
  {
    hide IsRun, HostInv, NetInv, Separate, Heard, Beaten;
    RunInv(r, k);
    if i :| 0 <= i < |r.states[k].hosts[h].txs| && LostLocally(r.states[k].hosts[h].txs[i], t) {
      TxFacts(r.states[k], h, i);
    }
  }

  /** A nonempty set of requests has one that no other in it outranks. */
  lemma {:induction false} GreatestExists(log: Log, ts: set<Tid>) returns (best: Tid)
    requires ts != {} && forall t :: t in ts ==> t in log
    ensures best in ts && forall t :: t in ts ==> !Higher(log[t], log[best])
    decreases |ts|
  {
    var x :| x in ts;
    if ts == {x} {
      HigherIrreflexive(log[x]);
      best := x;
    } else {
      var m := GreatestExists(log, ts - {x});
      if Higher(log[x], log[m]) {
        best := x;
        HigherIrreflexive(log[x]);
        forall t | t in ts
          ensures !Higher(log[t], log[x])
        {
          if t != x && Higher(log[t], log[x]) {
            HigherTransitive(log[t], log[x], log[m]);
          }
        }
      } else {
        best := m;
      }
    }
  }

  /** The requests issued so far on the paths of `t`. */
  function Contenders(log: Log, t: Tid): set<Tid>
    requires t in log
  {
    set u | u in log && SamePaths(log[u].request, log[t].request)
  }

  /** Contenders cannot all eliminate each other: on every contended path pair some
      issued request is refused for conflict by nobody, at no host and not locally. */
  lemma SomeContenderSurvives(r: Run, k: nat, t: Tid) returns (best: Tid)
    requires IsRun(r) && k < |r.states| && t in r.states[k].started
    ensures best in Contenders(r.states[k].started, t)
    ensures !Beaten(r.states[k].started, best)
    ensures forall h :: h in r.states[k].hosts && best in r.states[k].hosts[h].votes ==>
              r.states[k].hosts[h].votes[best] != NACK(ERR_TRANSACTION_CONFLICT)
    ensures forall h, i: nat :: HasTx(r.states[k], h, i) && r.states[k].hosts[h].txs[i].data.tid == best ==>
              !EndedWith(r.states[k].hosts[h].txs[i], Conflict)
  {
    hide IsRun, EndedWith;
    var log := r.states[k].started;
    assert t in Contenders(log, t);
    best := GreatestExists(log, Contenders(log, t));
    assert !Beaten(log, best);
    forall h | h in r.states[k].hosts && best in r.states[k].hosts[h].votes
      ensures r.states[k].hosts[h].votes[best] != NACK(ERR_TRANSACTION_CONFLICT)
    {
      if r.states[k].hosts[h].votes[best] == NACK(ERR_TRANSACTION_CONFLICT) {
        RefusalsPointUp(r, k, h, best);
      }
    }
    forall h, i: nat | HasTx(r.states[k], h, i) && r.states[k].hosts[h].txs[i].data.tid == best
      ensures !EndedWith(r.states[k].hosts[h].txs[i], Conflict)
    {
      if EndedWith(r.states[k].hosts[h].txs[i], Conflict) {
        assert LostLocally(r.states[k].hosts[h].txs[i], best);
        RefusalsPointUp(r, k, h, best);
      }
    }
  }
}
