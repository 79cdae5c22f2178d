/** Rounds of contention in runs of the commit protocol: who wins a round, what it
does to the clocks, and how long a peer waits over many rounds. */
module Rounds {
  import opened Names
  import opened Messages
  import opened Registry
  import opened Conflicts
  import opened Responses
  import opened Sets
  import opened Replication
  import opened ReplicationInvariant
  import opened ReplicationSteps
  import opened ReplicationSafety
  import opened ReplicationTheorems
  import opened Exclusion
  import opened Fairness

  // ---------------------------------------------------------------- what a round is

  /** Between the states `first` and `last` of a run, every contender h makes one
      Replicate call, for the transaction `tids[h]`; any of the hosts may contend. */
  datatype Round = Round(first: nat, last: nat, tids: map<Name, Tid>)

  predicate OwnCall(tx: Tx, t: Tid) {
    tx.owner.Replicator? && tx.data.tid == t
  }

  predicate Done(tx: Tx) {
    tx.phase.Returned? || tx.phase.Deleted?
  }

  /** The Replicate call for t at host h has ended with the outcome o. */
  ghost predicate EndsAs(s: State, h: Name, t: Tid, o: Outcome) {
    exists i: nat :: HasTx(s, h, i) && OwnCall(s.hosts[h].txs[i], t) && EndedWith(s.hosts[h].txs[i], o)
  }

  ghost predicate Lost(s: State, h: Name, t: Tid) {
    EndsAs(s, h, t, Conflict) || EndsAs(s, h, t, NotPermitted)
  }

  ghost predicate Placed(r: Run, c: Round) {
    && c.first <= c.last < |r.states|
    && c.tids.Keys <= r.states[c.first].hosts.Keys == r.states[c.last].hosts.Keys
  }

  /** Every request is new in this round, carries the clock its host had when the
      round began, and names the same paths as the others. */
  ghost predicate Issues(r: Run, c: Round)
    requires Placed(r, c)
  {
    var s, log := r.states[c.first], r.states[c.last].started;
    && (forall h :: h in c.tids ==>
          && c.tids[h] !in s.started && c.tids[h] in log
          && log[c.tids[h]].initiator == h && log[c.tids[h]].request.clock == s.hosts[h].clock)
    && (forall g, h :: g in c.tids && h in c.tids ==> SamePaths(log[c.tids[g]].request, log[c.tids[h]].request))
  }

  /** A host makes no other Replicate call meanwhile, and its own one neither times
      out nor fails to send. */
  ghost predicate CallsOnce(r: Run, c: Round, h: Name)
    requires Placed(r, c) && h in c.tids
  {
    var s, s' := r.states[c.first], r.states[c.last];
    && (forall i: nat :: HasTx(s', h, i) && s'.hosts[h].txs[i].owner.Replicator? ==>
          s'.hosts[h].txs[i].data.tid == c.tids[h] || (HasTx(s, h, i) && Done(s.hosts[h].txs[i])))
    && (EndsAs(s', h, c.tids[h], Success) || Lost(s', h, c.tids[h]))
  }

  /** On the paths of q the host holds requests of this round only. */
  ghost predicate HoldsContenders(host: Host, c: Round, q: Request) {
    forall u :: Holds(host, u) && SamePaths(ViewOf(host)[u].request.value, q) ==> u in c.tids.Values
  }

  /** No request from outside the round is in the way of a check or a vote on one of
      the round; every such vote finds no fault with the operation itself, and if its
      voter contends too, its own call is registered or has lost already. */
  ghost predicate Contends(s: State, step: Step, c: Round, log: Log) {
    (step.Check? || step.Vote?) && HasTx(s, step.host, step.inc) ==>
      var t := s.hosts[step.host].txs[step.inc].data.tid;
      t in c.tids.Values && t in log ==>
        && HoldsContenders(s.hosts[step.host], c, log[t].request)
        && (step.Vote? ==>
              && step.consulted == ACK
              && (step.host in c.tids ==>
                    Live(s.hosts[step.host], c.tids[step.host]) || Lost(s, step.host, c.tids[step.host])))
  }

  ghost predicate IsRound(r: Run, c: Round) {
    && Placed(r, c) && Issues(r, c)
    && (forall h :: h in c.tids ==> CallsOnce(r, c, h))
    && forall k :: c.first <= k < c.last && k < |r.steps| ==>
         Contends(r.states[k], r.steps[k], c, r.states[c.last].started)
  }

  // ---------------------------------------------------------------- how a call ends

  /** These steps end no call. */
  lemma NothingEnds(s: State, step: Step, h: Name, i: nat, o: Outcome)
    requires Enabled(s, step) && (step.Start? || step.Drop? || step.Deliver? || step.Rendezvous? || step.Vote?)
    requires HasTx(Apply(s, step), h, i) && EndedWith(Apply(s, step).hosts[h].txs[i], o)
    ensures HasTx(s, h, i) && EndedWith(s.hosts[h].txs[i], o)
  {
    hide InConflict, Absorb, Packets, ViewOf;
  }

  /** These end calls, but not by a loss. */
  lemma NothingLost(s: State, step: Step, h: Name, i: nat, o: Outcome)
    requires Enabled(s, step) && (step.Broadcast? || step.Timeout? || step.MirrorReturns? || step.Delete?)
    requires o == Conflict || o == NotPermitted
    requires HasTx(Apply(s, step), h, i) && EndedWith(Apply(s, step).hosts[h].txs[i], o)
    ensures HasTx(s, h, i) && EndedWith(s.hosts[h].txs[i], o)
  {
    hide Packets;
  }

  lemma StepEnds(s: State, step: Step, h: Name, i: nat, o: Outcome)
    requires Enabled(s, step) && (o == Conflict || o == NotPermitted)
    requires HasTx(Apply(s, step), h, i) && EndedWith(Apply(s, step).hosts[h].txs[i], o)
    requires HasTx(s, h, i) ==> !EndedWith(s.hosts[h].txs[i], o)
    ensures HasTx(s, h, i) && (if o == Conflict then step == Check(h, i) else step == Decide(h, i))
  {
    hide Enabled, Apply, EndedWith;
    match step {
      case Check(g, k) => CheckLoses(s, g, k, h, i, o);
      case Decide(g, k) => DecideLoses(s, g, k, h, i, o);
      case Broadcast(_, _, _, _) => NothingLost(s, step, h, i, o);
      case Timeout(_, _) => NothingLost(s, step, h, i, o);
      case MirrorReturns(_, _) => NothingLost(s, step, h, i, o);
      case Delete(_, _) => NothingLost(s, step, h, i, o);
      case _ => NothingEnds(s, step, h, i, o);
    }
  }

  lemma CheckLoses(s: State, g: Name, k: nat, h: Name, i: nat, o: Outcome)
    requires Enabled(s, Check(g, k)) && (o == Conflict || o == NotPermitted)
    requires HasTx(Apply(s, Check(g, k)), h, i) && EndedWith(Apply(s, Check(g, k)).hosts[h].txs[i], o)
    requires HasTx(s, h, i) ==> !EndedWith(s.hosts[h].txs[i], o)
    ensures HasTx(s, h, i) && o == Conflict && g == h && k == i
  {
    hide InConflict, ViewOf, Bump;
  }

  lemma DecideLoses(s: State, g: Name, k: nat, h: Name, i: nat, o: Outcome)
    requires Enabled(s, Decide(g, k)) && (o == Conflict || o == NotPermitted)
    requires HasTx(Apply(s, Decide(g, k)), h, i) && EndedWith(Apply(s, Decide(g, k)).hosts[h].txs[i], o)
    requires HasTx(s, h, i) ==> !EndedWith(s.hosts[h].txs[i], o)
    ensures HasTx(s, h, i) && o == NotPermitted && g == h && k == i
  {
    hide HasNack, ClockAfter;
  }

  /** The step at which a call that lost did so. */
  lemma {:induction false} EndingStep(r: Run, m: nat, h: Name, i: nat, o: Outcome) returns (k: nat)
    requires IsRun(r) && m < |r.states| && (o == Conflict || o == NotPermitted)
    requires HasTx(r.states[m], h, i) && EndedWith(r.states[m].hosts[h].txs[i], o)
    ensures k < m && k < |r.steps| && HasTx(r.states[k], h, i) && HasTx(r.states[k + 1], h, i)
    ensures EndedWith(r.states[k + 1].hosts[h].txs[i], o)
    ensures if o == Conflict then r.steps[k] == Check(h, i) else r.steps[k] == Decide(h, i)
    decreases m
  {
    hide Inv, Enabled, Apply, EndedWith;
    if m == 0 {
      assert false;
    } else {
      assert Taken(r.states[m - 1], r.steps[m - 1], r.states[m]);
      if HasTx(r.states[m - 1], h, i) && EndedWith(r.states[m - 1].hosts[h].txs[i], o) {
        k := EndingStep(r, m - 1, h, i, o);
      } else {
        StepEnds(r.states[m - 1], r.steps[m - 1], h, i, o);
        k := m - 1;
      }
    }
  }

  /** An object of a contender exists only after the round began. */
  lemma InRound(r: Run, c: Round, k: nat, h: Name, i: nat, g: Name)
    requires IsRun(r) && IsRound(r, c) && k < |r.states| && HasTx(r.states[k], h, i)
    requires g in c.tids && r.states[k].hosts[h].txs[i].data.tid == c.tids[g]
    ensures c.first < k && c.tids[g] in r.states[k].started
  {
    hide IsRun, Inv, Grows, TxInv, CallsOnce, Contends;
    RunInv(r, k);
    TxFacts(r.states[k], h, i);
    if k <= c.first {
      RunGrows(r, k, c.first);
      StartedIsKept(r.states[k], r.states[c.first], c.tids[g], c.tids[g]);
    }
  }

  /** What the histories say at `k` they say at the end of the round. */
  lemma LogAtEnd(r: Run, c: Round, k: nat, t: Tid)
    requires IsRun(r) && Placed(r, c) && k <= c.last && t in r.states[k].started
    ensures t in r.states[c.last].started && r.states[c.last].started[t] == r.states[k].started[t]
  {
    hide IsRun, Grows;
    RunGrows(r, k, c.last);
    StartedIsKept(r.states[k], r.states[c.last], t, t);
  }

  // ---------------------------------------------------------------- every loss has a rival

  ghost predicate Outranks(r: Run, c: Round, f: Name, g: Name)
    requires Placed(r, c)
  {
    var log := r.states[c.last].started;
    && f in c.tids && g in c.tids && c.tids[f] in log && c.tids[g] in log
    && Higher(log[c.tids[f]], log[c.tids[g]])
  }

  lemma Holder(s: State, h: Name, msg: Message) returns (u: Tid)
    requires Inv(s) && h in s.hosts && msg.tid in s.started && msg == RequestMessage(s.started, msg.tid)
    requires InConflict(ViewOf(s.hosts[h]), msg)
    ensures Holds(s.hosts[h], u) && u in s.started && Beats(s.started[u], s.started[msg.tid])
    ensures ViewOf(s.hosts[h])[u].request.value == s.started[u].request
  {
    hide Inv, Beats;
    var v := ViewOf(s.hosts[h]);
    u :| u in v && Refuses(v[u], msg);
    HeldAsIssued(s, h, u);
  }

  /** A contender that is in conflict with a registry has a rival in the round. */
  lemma Rival(r: Run, c: Round, k: nat, h: Name, g: Name) returns (f: Name)
    requires IsRun(r) && IsRound(r, c) && k <= c.last && h in r.states[k].hosts && g in c.tids
    requires c.tids[g] in r.states[k].started
    requires InConflict(ViewOf(r.states[k].hosts[h]), RequestMessage(r.states[k].started, c.tids[g]))
    requires HoldsContenders(r.states[k].hosts[h], c, r.states[k].started[c.tids[g]].request)
    ensures f in c.tids && Outranks(r, c, f, g)
  {
    hide IsRun, Inv, Holds, ViewOf, InConflict, Issues, CallsOnce, Contends;
    RunInv(r, k);
    var u := Holder(r.states[k], h, RequestMessage(r.states[k].started, c.tids[g]));
    LogAtEnd(r, c, k, u);
    LogAtEnd(r, c, k, c.tids[g]);
    assert u in c.tids.Values;
    f :| f in c.tids && c.tids[f] == u;
  }

  lemma VoteOutcome(s: State, step: Step, h: Name, t: Tid)
    requires Inv(s) && Enabled(s, step) && VotesOn(s, step, h, t)
    requires step.consulted == ACK && h in Apply(s, step).hosts && t in Apply(s, step).hosts[h].votes
    ensures t in s.started
    ensures var response := Apply(s, step).hosts[h].votes[t];
            && (response == ACK || response == NACK(ERR_TRANSACTION_CONFLICT))
            && (response.NACK? <==> InConflict(ViewOf(s.hosts[h]), RequestMessage(s.started, t)))
  {
    hide Inv, InConflict, ViewOf;
    VoteIsNew(s, step);
  }

  /** A NACK on a contender is a conflict with a rival in the round. */
  lemma NackHasRival(r: Run, c: Round, k: nat, x: Name, g: Name) returns (f: Name)
    requires IsRun(r) && IsRound(r, c) && k <= c.last && x in r.states[k].hosts && g in c.tids
    requires c.tids[g] in r.states[k].hosts[x].votes && r.states[k].hosts[x].votes[c.tids[g]].NACK?
    ensures r.states[k].hosts[x].votes[c.tids[g]] == NACK(ERR_TRANSACTION_CONFLICT)
    ensures f in c.tids && Outranks(r, c, f, g)
  {
    hide Inv, Enabled, Apply, Initial, Outranks, Issues, CallsOnce, HoldsContenders, Live, Lost, InConflict, ViewOf;
    var t := c.tids[g];
    var j := VoteHappened(r, k, x, t);
    InRound(r, c, j, x, r.steps[j].inc, g);
    RunInv(r, j);
    assert Taken(r.states[j], r.steps[j], r.states[j + 1]);
    LogAtEnd(r, c, j, t);
    assert Contends(r.states[j], r.steps[j], c, r.states[c.last].started);
    VoteOutcome(r.states[j], r.steps[j], x, t);
    f := Rival(r, c, j, x, g);
  }

  /** A Replicate call that was refused heard a NACK. */
  lemma RefusedByVote(s: State, h: Name, i: nat) returns (x: Name)
    requires Inv(s) && HasTx(s, h, i) && s.hosts[h].txs[i].owner.Replicator?
    requires EndedWith(s.hosts[h].txs[i], NotPermitted)
    ensures x in s.hosts && s.hosts[h].txs[i].data.tid in s.hosts[x].votes
    ensures s.hosts[x].votes[s.hosts[h].txs[i].data.tid].NACK?
  {
    hide HostInv, HostLink, AbsorbAll;
    TxFacts(s, h, i);
    var tx := s.hosts[h].txs[i];
    var k :| 0 <= k < |tx.arrived| && IsNack(tx.arrived[k]);
    x := tx.arrived[k].peer;
    assert PacketInv(Packet(h, tx.arrived[k]), s.hosts, s.started);
  }

  lemma CheckConflict(s: State, h: Name, i: nat)
    requires Inv(s) && Enabled(s, Check(h, i))
    requires HasTx(Apply(s, Check(h, i)), h, i) && EndedWith(Apply(s, Check(h, i)).hosts[h].txs[i], Conflict)
    ensures s.hosts[h].txs[i].data.tid in s.started
    ensures InConflict(ViewOf(s.hosts[h]), RequestMessage(s.started, s.hosts[h].txs[i].data.tid))
  {
    hide Inv, InConflict, ViewOf, TxInv, TxLink;
    TxFacts(s, h, i);
    CheckerFacts(h, s.hosts[h].txs[i], |s.hosts| - 1, s.hosts[h].votes, s.net, s.sent, s.started);
  }

  /** Every loss, local or by vote, is to a rival in the round. */
  lemma LossHasRival(r: Run, c: Round, k: nat, g: Name) returns (f: Name)
    requires IsRun(r) && IsRound(r, c) && k <= c.last && g in c.tids && Lost(r.states[k], g, c.tids[g])
    ensures f in c.tids && Outranks(r, c, f, g)
  {
    hide IsRun, Inv, Outranks, Issues, CallsOnce, EndedWith;
    var t := c.tids[g];
    if EndsAs(r.states[k], g, t, Conflict) {
      var i: nat :| HasTx(r.states[k], g, i) && OwnCall(r.states[k].hosts[g].txs[i], t)
                 && EndedWith(r.states[k].hosts[g].txs[i], Conflict);
      f := CheckHasRival(r, c, k, g, i);
    } else {
      var i: nat :| HasTx(r.states[k], g, i) && OwnCall(r.states[k].hosts[g].txs[i], t)
                 && EndedWith(r.states[k].hosts[g].txs[i], NotPermitted);
      RunInv(r, k);
      var x := RefusedByVote(r.states[k], g, i);
      f := NackHasRival(r, c, k, x, g);
    }
  }

  lemma CheckHasRival(r: Run, c: Round, k: nat, g: Name, i: nat) returns (f: Name)
    requires IsRun(r) && IsRound(r, c) && k <= c.last && g in c.tids
    requires HasTx(r.states[k], g, i) && OwnCall(r.states[k].hosts[g].txs[i], c.tids[g])
    requires EndedWith(r.states[k].hosts[g].txs[i], Conflict)
    ensures f in c.tids && Outranks(r, c, f, g)
  {
    hide Inv, Enabled, Apply, Initial, Grows, Outranks, Issues, CallsOnce, HoldsContenders, Live, Lost;
    hide InConflict, ViewOf;
    var j := EndingStep(r, k, g, i, Conflict);
    SameTx(r, j, k, g, i);
    InRound(r, c, j, g, i, g);
    RunInv(r, j);
    assert Taken(r.states[j], r.steps[j], r.states[j + 1]);
    CheckConflict(r.states[j], g, i);
    LogAtEnd(r, c, j, c.tids[g]);
    assert Contends(r.states[j], r.steps[j], c, r.states[c.last].started);
    f := Rival(r, c, j, g, g);
  }

  /** An object keeps its id and its owner. */
  lemma SameTx(r: Run, j: nat, k: nat, h: Name, i: nat)
    requires IsRun(r) && j <= k < |r.states| && HasTx(r.states[j], h, i)
    ensures HasTx(r.states[k], h, i)
    ensures r.states[k].hosts[h].txs[i].data.tid == r.states[j].hosts[h].txs[i].data.tid
    ensures r.states[k].hosts[h].txs[i].owner == r.states[j].hosts[h].txs[i].owner
    ensures forall o :: EndedWith(r.states[j].hosts[h].txs[i], o) ==> EndedWith(r.states[k].hosts[h].txs[i], o)
  {
    hide IsRun, Grows, Committed, EndedWith;
    RunGrows(r, j, k);
    GrownTx(r.states[j], r.states[k], h, i);
  }

  // ---------------------------------------------------------------- who wins

  /** A contender that nobody outranks wins. */
  lemma TopWins(r: Run, c: Round, w: Name)
    requires IsRun(r) && IsRound(r, c) && w in c.tids
    requires forall g :: g in c.tids ==> !Outranks(r, c, g, w)
    ensures EndsAs(r.states[c.last], w, c.tids[w], Success)
    ensures forall k :: 0 <= k <= c.last ==> !Lost(r.states[k], w, c.tids[w])
  {
    hide IsRun, Outranks, Issues, Contends, Lost, EndsAs;
    forall k | 0 <= k <= c.last
      ensures !Lost(r.states[k], w, c.tids[w])
    {
      if Lost(r.states[k], w, c.tids[w]) {
        var f := LossHasRival(r, c, k, w);
      }
    }
    assert CallsOnce(r, c, w);
  }

  /** A contender whom the winner outranks loses: the winner's host votes on it with
      its own request registered. */
  lemma OutrankedLoses(r: Run, c: Round, w: Name, g: Name)
    requires IsRun(r) && IsRound(r, c) && w in c.tids && g in c.tids && g != w
    requires forall f :: f in c.tids ==> !Outranks(r, c, f, w)
    requires Outranks(r, c, w, g)
    ensures Lost(r.states[c.last], g, c.tids[g]) && !EndsAs(r.states[c.last], g, c.tids[g], Success)
  {
    hide IsRun, Issues, Contends, Lost, Outranks, Committed, AllVotedAck, Inv;
    TopWins(r, c, w);
    assert CallsOnce(r, c, g);
    var s, t := r.states[c.last], c.tids[g];
    if EndsAs(s, g, t, Success) {
      var i: nat :| HasTx(s, g, i) && OwnCall(s.hosts[g].txs[i], t) && EndedWith(s.hosts[g].txs[i], Success);
      assert Committed(s.hosts[g].txs[i]) by { SuccessCommits(s.hosts[g].txs[i]); }
      NoWayAroundTheWinner(r, c, w, g, i);
    }
  }

  lemma SuccessCommits(tx: Tx)
    requires EndedWith(tx, Success)
    ensures Committed(tx)
  {
  }

  lemma WinnerBeats(r: Run, c: Round, w: Name, g: Name)
    requires IsRound(r, c) && w in c.tids && g in c.tids && g != w && Outranks(r, c, w, g)
    ensures var log := r.states[c.last].started;
            c.tids[w] in log && c.tids[g] in log && log[c.tids[g]].initiator == g
            && Beats(log[c.tids[w]], log[c.tids[g]])
  {
    hide Contends, CallsOnce, Higher;
  }

  lemma NoWayAroundTheWinner(r: Run, c: Round, w: Name, g: Name, i: nat)
    requires IsRun(r) && IsRound(r, c) && w in c.tids && g in c.tids && g != w
    requires Outranks(r, c, w, g)
    requires forall k :: 0 <= k <= c.last ==> !Lost(r.states[k], w, c.tids[w])
    requires HasTx(r.states[c.last], g, i) && r.states[c.last].hosts[g].txs[i].data.tid == c.tids[g]
    ensures !Committed(r.states[c.last].hosts[g].txs[i])
  {
    if Committed(r.states[c.last].hosts[g].txs[i]) {
      var s, t := r.states[c.last], c.tids[g];
      WinnerBeats(r, c, w, g);
      Unanimity(r, c.last, g, i);
      hide Inv, Initial, Enabled, Apply, Issues, CallsOnce, HoldsContenders, Lost, Live, Outranks, Committed, Beats;
      assert w in s.hosts && t in s.hosts[w].votes;
      var k := VoteHappened(r, c.last, w, t);
      InRound(r, c, k, w, r.steps[k].inc, g);
      LogAtEnd(r, c, k, t);
      assert Contends(r.states[k], r.steps[k], c, s.started);
      assert Live(r.states[k].hosts[w], c.tids[w]);
      RunInv(r, k);
      LiveHolds(r.states[k], w, c.tids[w]);
      HeldAsIssued(r.states[k], w, c.tids[w]);
      LogAtEnd(r, c, k, c.tids[w]);
      ConditionalExclusion(r, k, w, c.tids[w], t, c.last, g, i);
    }
  }

  // ---------------------------------------------------------------- the clocks

  /** What a refused call heard were conflicts only. */
  lemma OnlyConflictVotes(r: Run, c: Round, k: nat, g: Name, i: nat, response: Response)
    requires IsRun(r) && IsRound(r, c) && k <= c.last && g in c.tids
    requires HasTx(r.states[k], g, i) && OwnCall(r.states[k].hosts[g].txs[i], c.tids[g])
    requires response in r.states[k].hosts[g].txs[i].data.responses && response.NACK?
    ensures response == NACK(ERR_TRANSACTION_CONFLICT)
  {
    hide IsRun, HostInv, HostLink, Issues, CallsOnce, Contends, Outranks;
    var s := r.states[k];
    var tx := s.hosts[g].txs[i];
    RunInv(r, k);
    TxFacts(s, g, i);
    var j := StoredArrived(Base(g, tx), tx.arrived, response);
    assert PacketInv(Packet(g, tx.arrived[j]), s.hosts, s.started);
    var f := NackHasRival(r, c, k, tx.arrived[j].peer, g);
  }

  lemma RefusedHasNack(s: State, h: Name, i: nat)
    requires Inv(s) && HasTx(s, h, i) && s.hosts[h].txs[i].owner.Replicator?
    requires EndedWith(s.hosts[h].txs[i], NotPermitted)
    ensures HasNack(s.hosts[h].txs[i].data.responses)
  {
    hide Inv;
    TxFacts(s, h, i);
    var tx := s.hosts[h].txs[i];
    AbsorbedNacks(Base(h, tx), tx.arrived);
    hide AbsorbAll;
  }

  /** The one step at which a losing call raises the clock. */
  lemma LosingStep(r: Run, c: Round, g: Name) returns (k: nat, i: nat)
    requires IsRun(r) && IsRound(r, c) && g in c.tids && Lost(r.states[c.last], g, c.tids[g])
    ensures c.first <= k < c.last && k < |r.steps|
    ensures HasTx(r.states[c.last], g, i) && OwnCall(r.states[c.last].hosts[g].txs[i], c.tids[g])
    ensures RaisesClock(r.states[k], r.steps[k]) && r.steps[k].host == g && r.steps[k].inc == i
    ensures g in r.states[k].hosts && g in r.states[k + 1].hosts
    ensures r.states[k + 1].hosts[g].clock == Bump(r.states[k].hosts[g].clock)
  {
    hide Inv, Enabled, Apply, Initial, Grows, Issues, CallsOnce, Contends, EndedWith, RaisesClock, OnlyConflicts;
    var s, t := r.states[c.last], c.tids[g];
    var o := if EndsAs(s, g, t, Conflict) then Conflict else NotPermitted;
    i :| HasTx(s, g, i) && OwnCall(s.hosts[g].txs[i], t) && EndedWith(s.hosts[g].txs[i], o);
    k := EndingStep(r, c.last, g, i, o);
    SameTx(r, k, c.last, g, i);
    SameTx(r, k + 1, c.last, g, i);
    InRound(r, c, k, g, i, g);
    assert Taken(r.states[k], r.steps[k], r.states[k + 1]);
    RunInv(r, k);
    if o == NotPermitted {
      LostToConflicts(r, c, k + 1, g, i);
    }
    LossRaisesClock(r.states[k], r.steps[k]);
  }

  lemma LostToConflicts(r: Run, c: Round, k: nat, g: Name, i: nat)
    requires IsRun(r) && IsRound(r, c) && k <= c.last && g in c.tids
    requires HasTx(r.states[k], g, i) && OwnCall(r.states[k].hosts[g].txs[i], c.tids[g])
    requires EndedWith(r.states[k].hosts[g].txs[i], NotPermitted)
    ensures OnlyConflicts(r.states[k].hosts[g].txs[i].data.responses)
  {
    hide IsRun, Issues, CallsOnce, Contends, Inv, EndedWith, HasNack;
    RunInv(r, k);
    RefusedHasNack(r.states[k], g, i);
    forall response | response in r.states[k].hosts[g].txs[i].data.responses && response.NACK?
      ensures response.error == ERR_TRANSACTION_CONFLICT
    {
      OnlyConflictVotes(r, c, k, g, i, response);
    }
  }

  predicate RaisesAt(s: State, step: Step, h: Name) {
    RaisesClock(s, step) && step.host == h
  }

  /** Within the round only the round's own call can raise the clock of a host. */
  lemma OnlyOwnRise(r: Run, c: Round, h: Name, i: nat, k: nat)
    requires IsRun(r) && IsRound(r, c) && h in c.tids && c.first <= k < c.last && k < |r.steps|
    requires HasTx(r.states[c.last], h, i) && OwnCall(r.states[c.last].hosts[h].txs[i], c.tids[h])
    requires RaisesAt(r.states[k], r.steps[k], h)
    ensures r.steps[k].inc == i
  {
    hide IsRun, Inv, Issues, Contends, EndsAs, Lost, Enabled, Apply, OnlyConflicts;
    RunInv(r, k);
    ClockRises(r.states[k], r.steps[k], h);
    var j := r.steps[k].inc;
    SameTx(r, k, c.last, h, j);
    assert CallsOnce(r, c, h);
    if r.states[c.last].hosts[h].txs[j].data.tid == c.tids[h] {
      RunInv(r, c.last);
      OneOwnCall(r.states[c.last], h, i, j);
    } else {
      SameTx(r, c.first, k, h, j);
      DoneStays(r.states[c.first].hosts[h].txs[j], r.states[k].hosts[h].txs[j]);
    }
  }

  lemma DoneStays(tx: Tx, tx': Tx)
    requires Done(tx) && forall o :: EndedWith(tx, o) ==> EndedWith(tx', o)
    ensures Done(tx')
  {
    assert EndedWith(tx, tx.phase.outcome);
  }

  lemma OneOwnCall(s: State, h: Name, i: nat, j: nat)
    requires Inv(s) && HasTx(s, h, i) && HasTx(s, h, j)
    requires s.hosts[h].txs[i].owner.Replicator? && s.hosts[h].txs[j].owner.Replicator?
    requires s.hosts[h].txs[i].data.tid == s.hosts[h].txs[j].data.tid
    ensures i == j
  {
    hide HostInv, NetInv, TxLink, VotesLink, Heard;
    assert Separate(s.hosts[h]);
  }

  /** A clock that no step raises stays. */
  lemma {:induction false} SteadyClock(r: Run, h: Name, j: nat, k: nat)
    requires IsRun(r) && j <= k < |r.states| && h in r.states[j].hosts
    requires forall m :: j <= m < k ==> !RaisesAt(r.states[m], r.steps[m], h)
    ensures h in r.states[k].hosts && r.states[k].hosts[h].clock == r.states[j].hosts[h].clock
    decreases k - j
  {
    hide Inv, Enabled, Apply, Initial, Grows, OnlyConflicts;
    if j == k {
    } else {
      SteadyClock(r, h, j, k - 1);
      RunInv(r, k - 1);
      assert Taken(r.states[k - 1], r.steps[k - 1], r.states[k]);
      StepGrows(r.states[k - 1], r.steps[k - 1]);
      SameKeys(r.states[k - 1], r.states[k]);
      if r.states[k].hosts[h].clock != r.states[k - 1].hosts[h].clock {
        ClockRises(r.states[k - 1], r.steps[k - 1], h);
      }
    }
  }

  lemma SameKeys(s: State, s': State)
    requires Grows(s, s')
    ensures s'.hosts.Keys == s.hosts.Keys
  {
    hide HostGrows;
  }

  lemma WinnerClock(r: Run, c: Round, w: Name)
    requires IsRun(r) && IsRound(r, c) && w in c.tids && EndsAs(r.states[c.last], w, c.tids[w], Success)
    ensures r.states[c.last].hosts[w].clock == r.states[c.first].hosts[w].clock
  {
    hide IsRun, Issues, CallsOnce, Contends, RaisesClock, Committed;
    var s := r.states[c.last];
    var i: nat :| HasTx(s, w, i) && OwnCall(s.hosts[w].txs[i], c.tids[w]) && EndedWith(s.hosts[w].txs[i], Success);
    SuccessCommits(s.hosts[w].txs[i]);
    RunSteps(r);
    forall m | c.first <= m < c.last
      ensures !RaisesAt(r.states[m], r.steps[m], w)
    {
      if RaisesAt(r.states[m], r.steps[m], w) {
        OnlyOwnRise(r, c, w, i, m);
        ClockRisesOnLossOnly(r, m, c.last);
      }
    }
    SteadyClock(r, w, c.first, c.last);
  }

  lemma RunSteps(r: Run)
    requires IsRun(r)
    ensures |r.states| == |r.steps| + 1
  {
  }

  lemma LoserClock(r: Run, c: Round, g: Name)
    requires IsRun(r) && IsRound(r, c) && g in c.tids && Lost(r.states[c.last], g, c.tids[g])
    ensures r.states[c.last].hosts[g].clock == Bump(r.states[c.first].hosts[g].clock)
  {
    hide IsRun, Issues, CallsOnce, Contends, RaisesClock, Lost, OwnCall, Bump;
    RunSteps(r);
    var k, i := LosingStep(r, c, g);
    forall m | c.first <= m < c.last && m != k
      ensures !RaisesAt(r.states[m], r.steps[m], g)
    {
      if RaisesAt(r.states[m], r.steps[m], g) {
        OnlyOwnRise(r, c, g, i, m);
        if m < k { ClockRisesOnce(r, m, k); } else { ClockRisesOnce(r, k, m); }
      }
    }
    SteadyClock(r, g, c.first, k);
    SteadyClock(r, g, k + 1, c.last);
  }

  // ---------------------------------------------------------------- one round

  /** The hosts in some order. */
  predicate Roster(names: seq<Name>, s: State) {
    Distinct(names) && Members(names) == s.hosts.Keys
  }

  function Clocks(names: seq<Name>, s: State): (clocks: seq<Uint64>)
    requires Roster(names, s)
    ensures |clocks| == |names|
  {
    seq(|names|, i requires 0 <= i < |names| => assert names[i] in Members(names); s.hosts[names[i]].clock)
  }

  /** Who contends, by place in the roster. */
  function Who(names: seq<Name>, c: Round): set<nat> {
    set i: nat | i < |names| && names[i] in c.tids
  }

  lemma OutranksIsOver(r: Run, c: Round, names: seq<Name>, j: nat, i: nat)
    requires IsRound(r, c) && Roster(names, r.states[c.first]) && i in Who(names, c) && j in Who(names, c)
    ensures Outranks(r, c, names[j], names[i]) <==> Over(names, Clocks(names, r.states[c.first]), j, i)
  {
    hide Contends, CallsOnce, Less;
    assert names[i] in Members(names) && names[j] in Members(names);
  }

  lemma SomeIndex(names: seq<Name>, s: State, g: Name) returns (j: nat)
    requires Roster(names, s) && g in s.hosts
    ensures j < |names| && names[j] == g
  {
    assert g in Members(names);
    j :| 0 <= j < |names| && names[j] == g;
  }

  lemma NobodyOutranks(r: Run, c: Round, names: seq<Name>, w: nat)
    requires IsRound(r, c) && Roster(names, r.states[c.first]) && w in Who(names, c)
    requires TopAmong(names, Clocks(names, r.states[c.first]), Who(names, c), w)
    ensures forall g :: g in c.tids ==> !Outranks(r, c, g, names[w])
  {
    hide Issues, Contends, CallsOnce, Outranks, Over, Roster, Clocks;
    forall g | g in c.tids
      ensures !Outranks(r, c, g, names[w])
    {
      var j := SomeIndex(names, r.states[c.first], g);
      OutranksIsOver(r, c, names, j, w);
    }
  }

  /** One round, whoever contends: exactly the contender with the greatest (clock,
      name) succeeds, every other call is refused for conflict, locally or by vote,
      and exactly the losers' clocks rise, by one, however the steps interleave. */
  lemma RoundRule(r: Run, c: Round, names: seq<Name>, i: nat)
    requires IsRun(r) && IsRound(r, c) && Roster(names, r.states[c.first]) && i in Who(names, c)
    ensures Roster(names, r.states[c.last])
    ensures EndsAs(r.states[c.last], names[i], c.tids[names[i]], Success) <==>
            TopAmong(names, Clocks(names, r.states[c.first]), Who(names, c), i)
    ensures Lost(r.states[c.last], names[i], c.tids[names[i]]) <==>
            !TopAmong(names, Clocks(names, r.states[c.first]), Who(names, c), i)
    ensures Clocks(names, r.states[c.last])[i] ==
            NextAmong(names, Clocks(names, r.states[c.first]), Who(names, c))[i]
  {
    hide IsRun, Issues, Contends, CallsOnce, Outranks, Over, TopAmong, EndsAs, Lost, Bump;
    var clocks, who := Clocks(names, r.states[c.first]), Who(names, c);
    var w := TopAmongExists(names, clocks, who);
    NobodyOutranks(r, c, names, w);
    OutranksIsOver(r, c, names, w, i);
    OneTopAmong(names, clocks, who, w, i);
    TopWins(r, c, names[w]);
    if i == w {
      WinnerClock(r, c, names[w]);
    } else {
      OutrankedLoses(r, c, names[w], names[i]);
      LoserClock(r, c, names[i]);
    }
  }

  /** A host that makes no call in the round keeps its clock. */
  lemma BystanderClock(r: Run, c: Round, h: Name)
    requires IsRun(r) && IsRound(r, c) && h in r.states[c.first].hosts && Rests(r, c, h)
    ensures h in r.states[c.last].hosts && r.states[c.last].hosts[h].clock == r.states[c.first].hosts[h].clock
  {
    hide IsRun, Inv, Issues, CallsOnce, Contends, Enabled, Apply, OnlyConflicts, RaisesClock;
    RunSteps(r);
    forall m | c.first <= m < c.last
      ensures !RaisesAt(r.states[m], r.steps[m], h)
    {
      if RaisesAt(r.states[m], r.steps[m], h) {
        RestingRise(r, c, h, m);
      }
    }
    SteadyClock(r, h, c.first, c.last);
  }

  /** Every call of the host had ended before the round. */
  ghost predicate Rests(r: Run, c: Round, h: Name)
    requires Placed(r, c)
  {
    var s, s' := r.states[c.first], r.states[c.last];
    forall i: nat :: HasTx(s', h, i) && s'.hosts[h].txs[i].owner.Replicator? ==>
      HasTx(s, h, i) && Done(s.hosts[h].txs[i])
  }

  lemma RestingRise(r: Run, c: Round, h: Name, k: nat)
    requires IsRun(r) && IsRound(r, c) && Rests(r, c, h) && c.first <= k < c.last && k < |r.steps|
    ensures !RaisesAt(r.states[k], r.steps[k], h)
  {
    hide IsRun, Inv, Issues, CallsOnce, Contends, Enabled, Apply, OnlyConflicts;
    if RaisesAt(r.states[k], r.steps[k], h) {
      RunInv(r, k);
      ClockRises(r.states[k], r.steps[k], h);
      var j := r.steps[k].inc;
      SameTx(r, k, c.last, h, j);
      SameTx(r, c.first, k, h, j);
      DoneStays(r.states[c.first].hosts[h].txs[j], r.states[k].hosts[h].txs[j]);
    }
  }

  // ---------------------------------------------------------------- many rounds

  /** Rounds one after another, each among some of the hosts while the others rest. */
  ghost predicate IsSeries(r: Run, cs: seq<Round>) {
    && (forall j :: 0 <= j < |cs| ==> IsRound(r, cs[j]))
    && (forall j :: 0 <= j < |cs| - 1 ==> cs[j].last == cs[j + 1].first)
    && (forall j, h :: 0 <= j < |cs| && h in r.states[cs[j].first].hosts && h !in cs[j].tids ==> Rests(r, cs[j], h))
  }

  /** Who contends in each round. */
  function Contenders(names: seq<Name>, cs: seq<Round>): (who: seq<set<nat>>)
    ensures |who| == |cs|
  {
    seq(|cs|, j requires 0 <= j < |cs| => Who(names, cs[j]))
  }

  lemma ClocksAfterRound(r: Run, c: Round, names: seq<Name>)
    requires IsRun(r) && IsRound(r, c) && Roster(names, r.states[c.first])
    requires forall h :: h in r.states[c.first].hosts && h !in c.tids ==> Rests(r, c, h)
    ensures Roster(names, r.states[c.last])
    ensures Clocks(names, r.states[c.last]) == NextAmong(names, Clocks(names, r.states[c.first]), Who(names, c))
  {
    hide IsRun, Issues, Contends, CallsOnce, TopAmong, Rests;
    assert Roster(names, r.states[c.last]);
    forall i | 0 <= i < |names|
      ensures Clocks(names, r.states[c.last])[i] ==
              NextAmong(names, Clocks(names, r.states[c.first]), Who(names, c))[i]
    {
      assert names[i] in Members(names);
      if names[i] in c.tids {
        RoundRule(r, c, names, i);
      } else {
        BystanderClock(r, c, names[i]);
      }
    }
  }

  /** The clocks at the start of round m follow from those at the first. */
  lemma {:induction false} SeriesClocks(r: Run, cs: seq<Round>, names: seq<Name>, m: nat)
    requires IsRun(r) && IsSeries(r, cs) && m < |cs| && Roster(names, r.states[cs[0].first])
    ensures Roster(names, r.states[cs[m].first])
    ensures Clocks(names, r.states[cs[m].first]) ==
            AfterAmong(names, Clocks(names, r.states[cs[0].first]), Contenders(names, cs), m)
    decreases m
  {
    hide IsRun, Issues, Contends, CallsOnce, NextAmong, Clocks, Who, Rests;
    if m == 0 {
    } else {
      SeriesClocks(r, cs, names, m - 1);
      assert IsRound(r, cs[m - 1]);
      ClocksAfterRound(r, cs[m - 1], names);
    }
  }

  /** The call of names[i] in round m succeeds. */
  ghost predicate Succeeds(r: Run, cs: seq<Round>, names: seq<Name>, i: nat, m: nat)
    requires m < |cs| && i < |names| && cs[m].last < |r.states|
  {
    names[i] in cs[m].tids && EndsAs(r.states[cs[m].last], names[i], cs[m].tids[names[i]], Success)
  }

  /** In a series of rounds, each among any of the hosts, a call succeeds exactly when
      the recurrence of the clocks says so. */
  lemma SeriesRule(r: Run, cs: seq<Round>, names: seq<Name>, i: nat, m: nat)
    requires IsRun(r) && IsSeries(r, cs) && m < |cs| && Roster(names, r.states[cs[0].first]) && i < |names|
    ensures cs[m].last < |r.states|
    ensures Succeeds(r, cs, names, i, m) <==>
            var who := Contenders(names, cs);
            TopAmong(names, AfterAmong(names, Clocks(names, r.states[cs[0].first]), who, m), who[m], i)
  {
    hide IsRun, Issues, Contends, CallsOnce, EndsAs, Clocks, Rests, Over, AfterAmong;
    SeriesClocks(r, cs, names, m);
    assert IsRound(r, cs[m]);
    if i in Who(names, cs[m]) {
      RoundRule(r, cs[m], names, i);
    }
  }

  // ---------------------------------------------------------------- full contention

  /** Everybody contends in every round. */
  ghost predicate AllContend(r: Run, cs: seq<Round>, names: seq<Name>) {
    && IsSeries(r, cs) && |cs| > 0 && Roster(names, r.states[cs[0].first])
    && forall j, i :: 0 <= j < |cs| && 0 <= i < |names| ==> names[i] in cs[j].tids
  }

  lemma FullRule(r: Run, cs: seq<Round>, names: seq<Name>, i: nat, m: nat)
    requires IsRun(r) && AllContend(r, cs, names) && i < |names| && m < |cs|
    ensures cs[m].last < |r.states|
    ensures Succeeds(r, cs, names, i, m) <==> WinsRound(names, Clocks(names, r.states[cs[0].first]), i, m)
  {
    hide IsRun, Issues, CallsOnce, Contends, Rests, Clocks, Over, AfterAmong, After, Succeeds;
    SeriesRule(r, cs, names, i, m);
    var who := Contenders(names, cs);
    forall j | 0 <= j < |who|
      ensures who[j] == Below(|names|)
    {
      assert who[j] == Who(names, cs[j]);
    }
    FullAfter(names, Clocks(names, r.states[cs[0].first]), who, m);
    FullTop(names, After(names, Clocks(names, r.states[cs[0].first]), m), i);
  }

  /** Exact fairness over runs: the Replicate calls of a host fail in every round
      before the one numbered by its wait and succeed in that one. */
  lemma ExactFairness(r: Run, cs: seq<Round>, names: seq<Name>, i: nat, m: nat)
    requires IsRun(r) && AllContend(r, cs, names) && i < |names| && m < |cs|
    requires var clocks := Clocks(names, r.states[cs[0].first]);
             m <= Wait(names, clocks, i) && NoWrap(names, clocks, Wait(names, clocks, i))
    ensures cs[m].last < |r.states|
    ensures Succeeds(r, cs, names, i, m) <==> m == Wait(names, Clocks(names, r.states[cs[0].first]), i)
  {
    hide IsRun, Issues, CallsOnce, Contends, WinsRound, NoWrap, Wait, Succeeds, Clocks, Rests;
    FullRule(r, cs, names, i, m);
    ExactWait(names, Clocks(names, r.states[cs[0].first]), i);
  }

  /** From equal clocks, n rounds are won by the n hosts in turn, the greatest name
      first, and leave the clocks equal again. */
  lemma FairRotation(r: Run, cs: seq<Round>, names: seq<Name>, clock: Uint64, i: nat, m: nat)
    requires IsRun(r) && AllContend(r, cs, names) && |cs| == |names|
    requires i < |names| && m < |names| && clock + |names| <= UINT64_SIZE
    requires forall j :: 0 <= j < |names| ==> Clocks(names, r.states[cs[0].first])[j] == clock
    ensures cs[m].last < |r.states|
    ensures Succeeds(r, cs, names, i, m) <==> Rank(names, i) == m
    ensures var s := r.states[cs[|cs| - 1].last];
            Roster(names, s) && Clocks(names, s)[i] == clock + |names| - 1
  {
    hide IsRun, WinsRound, Rank, Succeeds, Clocks, Issues, CallsOnce, Contends, Over, Rests;
    FullRule(r, cs, names, i, m);
    Rotation(names, Clocks(names, r.states[cs[0].first]), clock);
    FullClocks(r, cs, names);
  }

  lemma FullClocks(r: Run, cs: seq<Round>, names: seq<Name>)
    requires IsRun(r) && AllContend(r, cs, names)
    ensures cs[|cs| - 1].last < |r.states|
    ensures var s := r.states[cs[|cs| - 1].last];
            Roster(names, s) && Clocks(names, s) == After(names, Clocks(names, r.states[cs[0].first]), |cs|)
  {
    hide IsRun, Issues, CallsOnce, Contends, Clocks, Over, Rests, AfterAmong, NextAmong, Next;
    var last, who, clocks := |cs| - 1, Contenders(names, cs), Clocks(names, r.states[cs[0].first]);
    assert IsRound(r, cs[last]);
    SeriesClocks(r, cs, names, last);
    ClocksAfterRound(r, cs[last], names);
    forall j | 0 <= j < |who|
      ensures who[j] == Below(|names|)
    {
      assert who[j] == Who(names, cs[j]);
    }
    FullAfter(names, clocks, who, last);
    assert Who(names, cs[last]) == who[last];
    FullNext(names, After(names, clocks, last));
    assert After(names, clocks, |cs|) == Next(names, After(names, clocks, last));
  }
}
