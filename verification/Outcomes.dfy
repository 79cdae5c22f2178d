/** What each step of a Replicate call or a handler leads to, over all runs: the local
check, the broadcast, the vote and the decision, told by what was held, consulted
and heard. */
module Outcomes {
  import opened Names
  import opened Messages
  import opened Registry
  import opened Conflicts
  import opened Responses
  import opened Replication
  import opened ReplicationInvariant
  import opened ReplicationSteps
  import opened ReplicationSafety
  import opened ReplicationTheorems
  import opened Exclusion

  // ---------------------------------------------------------------- who stands in the way

  /** Host h holds a request that wins against that of t: issued by another peer for the
      same two paths, with a greater clock, or with an equal clock and a later name. */
  ghost predicate Blocked(s: State, h: Name, t: Tid)
    requires h in s.hosts && t in s.started
  {
    exists u :: Holds(s.hosts[h], u) && u in s.started && Blocks(s.started[u], s.started[t])
  }

  ghost predicate Blocks(a: Issued, b: Issued) {
    && a.initiator != b.initiator
    && a.request.metadata.relativePath == b.request.metadata.relativePath
    && a.request.metadata.newRelativePath == b.request.metadata.newRelativePath
    && (|| a.request.clock > b.request.clock
        || (a.request.clock == b.request.clock && Precedes(b.initiator, a.initiator)))
  }

  lemma BlocksIsBeats(a: Issued, b: Issued)
    ensures Blocks(a, b) <==> Beats(a, b)
  {
    hide Less, Precedes;
    LessIsPrecedes(b.initiator, a.initiator);
  }

  lemma BlockedIsConflict(s: State, h: Name, t: Tid)
    requires Inv(s) && h in s.hosts && t in s.started
    ensures Blocked(s, h, t) <==> InConflict(ViewOf(s.hosts[h]), RequestMessage(s.started, t))
  {
    hide Inv, Beats, Blocks;
    var v, msg := ViewOf(s.hosts[h]), RequestMessage(s.started, t);
    if u :| Holds(s.hosts[h], u) && u in s.started && Blocks(s.started[u], s.started[t]) {
      HeldAsIssued(s, h, u);
      BlocksIsBeats(s.started[u], s.started[t]);
      assert Refuses(v[u], msg);
    }
    if u :| u in v && Refuses(v[u], msg) {
      HeldAsIssued(s, h, u);
      BlocksIsBeats(s.started[u], s.started[t]);
      assert Holds(s.hosts[h], u);
    }
  }

  // ---------------------------------------------------------------- the vote

  /** A vote is ACK if and only if Consult said ACK and no held request stands in the
      way. What Consult refuses is refused with Consult's own error; what only a held
      request refuses, as a conflict. The packets this step sends are exactly that vote,
      one to each host reached. */
  lemma VoteRule(r: Run, k: nat, h: Name, t: Tid)
    requires IsRun(r) && k < |r.steps| && VotesOn(r.states[k], r.steps[k], h, t)
    ensures t in r.states[k].started && t !in r.states[k].hosts[h].votes
    ensures h in r.states[k + 1].hosts && t in r.states[k + 1].hosts[h].votes
    ensures var s, consulted := r.states[k], r.steps[k].consulted;
            r.states[k + 1].hosts[h].votes[t] ==
            if consulted.NACK? then consulted
            else if Blocked(s, h, t) then NACK(ERR_TRANSACTION_CONFLICT)
            else ACK
    ensures var s', vote := r.states[k + 1], Message(t, h, Resp(r.states[k + 1].hosts[h].votes[t]));
            forall p :: p in s'.sent && p !in r.states[k].sent <==> p.to in r.steps[k].reached && p.msg == vote
  {
    hide Inv, Initial, Blocked, InConflict, ViewOf;
    var s, step := r.states[k], r.steps[k];
    RunInv(r, k);
    assert Taken(s, step, r.states[k + 1]);
    VoteIsNew(s, step);
    BlockedIsConflict(s, h, t);
    VoteIsUnsent(s, h, t);
  }

  /** Nobody has seen a vote that was not cast. */
  lemma VoteIsUnsent(s: State, h: Name, t: Tid)
    requires Inv(s) && h in s.hosts && t in s.started && t !in s.hosts[h].votes
    ensures forall p :: p in s.sent && p.msg.tid == t && p.msg.peer == h ==> p.msg.body.Req?
  {
    hide HostInv, HostLink;
    forall p | p in s.sent && p.msg.tid == t && p.msg.peer == h
      ensures p.msg.body.Req?
    {
      assert PacketInv(p, s.hosts, s.started);
    }
  }

  /** If Consult refuses a transaction at any host, no owner of it, at any host and at
      any time, commits. */
  lemma RefusedByConsult(r: Run, k: nat, h: Name, t: Tid, m: nat, g: Name, j: nat)
    requires IsRun(r) && k < |r.steps| && m < |r.states|
    requires VotesOn(r.states[k], r.steps[k], h, t) && r.steps[k].consulted.NACK?
    requires HasTx(r.states[m], g, j) && r.states[m].hosts[g].txs[j].data.tid == t
    ensures !Committed(r.states[m].hosts[g].txs[j])
  {
    VoteRule(r, k, h, t);
    hide IsRun, Committed, VotesOn, Blocked;
    OneNackExcludes(r, k + 1, h, t, m, g, j);
  }

  /** If anybody commits, Consult accepted the request at every host but the initiator,
      and no request held there at that time stood in its way. */
  lemma AcceptedByConsult(r: Run, m: nat, g: Name, j: nat, x: Name) returns (k: nat)
    requires IsRun(r) && m < |r.states| && HasTx(r.states[m], g, j) && Committed(r.states[m].hosts[g].txs[j])
    requires var t := r.states[m].hosts[g].txs[j].data.tid;
             x in r.states[m].hosts && (t in r.states[m].started ==> x != r.states[m].started[t].initiator)
    ensures var t := r.states[m].hosts[g].txs[j].data.tid;
            && k < m && k < |r.steps| && VotesOn(r.states[k], r.steps[k], x, t)
            && r.steps[k].consulted == ACK
            && x in r.states[k].hosts && t in r.states[k].started && !Blocked(r.states[k], x, t)
  {
    hide IsRun, Committed, VotesOn, Blocked;
    var t := r.states[m].hosts[g].txs[j].data.tid;
    Unanimity(r, m, g, j);
    k := VoteHappened(r, m, x, t);
    VoterIsHere(r.states[k], r.steps[k], x, t);
    VoteRule(r, k, x, t);
  }

  lemma VoterIsHere(s: State, step: Step, h: Name, t: Tid)
    requires VotesOn(s, step, h, t)
    ensures step.Vote? && h in s.hosts
  {
  }

  // ---------------------------------------------------------------- the local check

  /** Before it sends anything, a Replicate call ends in a conflict if and only if a held
      request stands in its way; otherwise it goes on to send. Nothing is sent. */
  lemma CheckRule(r: Run, k: nat, h: Name, i: nat)
    requires IsRun(r) && k < |r.steps| && r.steps[k] == Check(h, i)
    ensures HasTx(r.states[k], h, i) && HasTx(r.states[k + 1], h, i)
    ensures r.states[k].hosts[h].txs[i].data.tid in r.states[k].started
    ensures r.states[k + 1].hosts[h].txs[i].phase ==
            if Blocked(r.states[k], h, r.states[k].hosts[h].txs[i].data.tid) then Returned(Conflict) else Phase.Sending
    ensures r.states[k + 1].sent == r.states[k].sent
  {
    hide Inv, Initial, Blocked, InConflict, ViewOf, TxInv, TxLink;
    var s := r.states[k];
    RunInv(r, k);
    assert Taken(s, r.steps[k], r.states[k + 1]);
    TxFacts(s, h, i);
    CheckerFacts(h, s.hosts[h].txs[i], |s.hosts| - 1, s.hosts[h].votes, s.net, s.sent, s.started);
    BlockedIsConflict(s, h, s.hosts[h].txs[i].data.tid);
  }

  // ---------------------------------------------------------------- the broadcast

  /** The call ends at once if a peer was down before sending or every send failed;
      otherwise it waits for as many messages as there are peers whose send succeeded.
      What is sent is its request, one packet to each host reached. */
  lemma BroadcastRule(r: Run, k: nat, h: Name, i: nat, result: BroadcastResult, reached: set<Name>)
    requires IsRun(r) && k < |r.steps| && r.steps[k] == Broadcast(h, i, result, reached)
    ensures HasTx(r.states[k], h, i) && HasTx(r.states[k + 1], h, i)
    ensures var s, phase := r.states[k], r.states[k + 1].hosts[h].txs[i].phase;
            var peers := s.hosts.Keys - {h};
            if result.PeerIsDown? || (result.failed != {} && peers <= result.failed) then phase == Returned(SendError)
            else phase == Awaiting(|peers - result.failed|, result.failed != {})
    ensures var s, t := r.states[k], r.states[k].hosts[h].txs[i].data.tid;
            && t in s.started
            && forall p :: p in r.states[k + 1].sent && p !in s.sent <==>
                 p.to in reached && p.msg == RequestMessage(s.started, t)
  {
    hide Inv, Initial, TxInv, TxLink;
    var s := r.states[k];
    RunInv(r, k);
    assert Taken(s, r.steps[k], r.states[k + 1]);
    TxFacts(s, h, i);
    SenderFacts(h, s.hosts[h].txs[i], |s.hosts| - 1, s.hosts[h].votes, s.net, s.sent, s.started);
    RequestIsUnsent(s, h, i);
    PeersLeft(s, h, result);
  }

  lemma RequestIsUnsent(s: State, h: Name, i: nat)
    requires Inv(s) && HasTx(s, h, i) && Quiet(s.hosts[h].txs[i])
    ensures forall p :: p in s.sent && p.msg.tid == s.hosts[h].txs[i].data.tid ==> p.msg.peer != h
  {
    hide HostInv, NetInv, TxLink, VotesLink, Heard, Separate;
  }

  lemma PeersLeft(s: State, h: Name, result: BroadcastResult)
    requires h in s.hosts && (result.Tried? ==> result.failed <= s.hosts.Keys - {h})
    ensures |s.hosts.Keys - {h}| == |s.hosts| - 1
    ensures result.Tried? ==> |s.hosts.Keys - {h} - result.failed| == |s.hosts| - 1 - |result.failed|
    ensures result.Tried? ==> (|result.failed| >= |s.hosts| - 1 <==> s.hosts.Keys - {h} <= result.failed)
  {
    var peers := s.hosts.Keys - {h};
    if result.Tried? {
      assert peers == result.failed + (peers - result.failed);
      if |result.failed| >= |peers| {
        assert |peers - result.failed| == 0;
        assert peers - result.failed == {};
      }
    }
  }

  // ---------------------------------------------------------------- the decision

  /** Some message the owner was given is a NACK. */
  ghost predicate HeardNack(tx: Tx) {
    exists k :: 0 <= k < |tx.arrived| && IsNack(tx.arrived[k])
  }

  /** The decision, by what was heard: a Replicate call whose broadcast was partial fails
      to send, one that heard a NACK is refused, any other succeeds; a handler that
      heard a NACK or voted one is refused, any other mirrors. */
  lemma DecisionRule(r: Run, k: nat, h: Name, i: nat)
    requires IsRun(r) && k < |r.steps| && r.steps[k] == Decide(h, i)
    ensures HasTx(r.states[k], h, i) && HasTx(r.states[k + 1], h, i)
    ensures r.states[k].hosts[h].txs[i].phase.Awaiting?
    ensures var tx := r.states[k].hosts[h].txs[i];
            r.states[k + 1].hosts[h].txs[i].phase ==
            if tx.owner.Replicator? then
              Returned(if tx.phase.partial then SendError else if HeardNack(tx) then NotPermitted else Success)
            else if HeardNack(tx) || (tx.vote.Some? && tx.vote.value.NACK?) then Returned(NotPermitted)
            else Mirroring
  {
    hide Inv, Initial, TxLink;
    var s := r.states[k];
    RunInv(r, k);
    assert Taken(s, r.steps[k], r.states[k + 1]);
    TxFacts(s, h, i);
    var tx := s.hosts[h].txs[i];
    AbsorbedNacks(Base(h, tx), tx.arrived);
    hide AbsorbAll;
  }

  // ---------------------------------------------------------------- the clock

  /** A Replicate call that was ever given a NACK with an error other than a conflict
      changes its host's clock neither by its check nor by its decision. */
  lemma OtherErrorKeepsClock(r: Run, m: nat, h: Name, i: nat, e: ResponseError, j: nat)
    requires IsRun(r) && m < |r.states| && j < |r.steps|
    requires HasTx(r.states[m], h, i) && r.states[m].hosts[h].txs[i].owner.Replicator?
    requires NACK(e) in r.states[m].hosts[h].txs[i].data.responses && e != ERR_TRANSACTION_CONFLICT
    requires r.steps[j] == Check(h, i) || r.steps[j] == Decide(h, i)
    ensures h in r.states[j].hosts && h in r.states[j + 1].hosts
    ensures r.states[j + 1].hosts[h].clock == r.states[j].hosts[h].clock
  {
    hide Inv, Initial, OnlyConflicts, Enabled, Apply;
    RunInv(r, j);
    assert Taken(r.states[j], r.steps[j], r.states[j + 1]);
    OwnStep(r.states[j], r.steps[j], h, i);
    if r.states[j + 1].hosts[h].clock != r.states[j].hosts[h].clock {
      ClockRises(r.states[j], r.steps[j], h);
      LostOtherwise(r, m, h, i, e, j + 1);
    }
  }

  lemma OwnStep(s: State, step: Step, h: Name, i: nat)
    requires Enabled(s, step) && (step == Check(h, i) || step == Decide(h, i))
    ensures h in s.hosts && h in Apply(s, step).hosts
  {
    hide InConflict, HasNack;
  }

  /** Such a call neither ends in a conflict nor on conflicts only. */
  lemma LostOtherwise(r: Run, m: nat, h: Name, i: nat, e: ResponseError, k: nat)
    requires IsRun(r) && m < |r.states| && k < |r.states| && HasTx(r.states[m], h, i) && HasTx(r.states[k], h, i)
    requires r.states[m].hosts[h].txs[i].owner.Replicator?
    requires NACK(e) in r.states[m].hosts[h].txs[i].data.responses && e != ERR_TRANSACTION_CONFLICT
    ensures var tx := r.states[k].hosts[h].txs[i];
            !EndedWith(tx, Conflict) && !(EndedWith(tx, NotPermitted) && OnlyConflicts(tx.data.responses))
  {
    hide IsRun, Inv, Grows, TxLink, OnlyConflicts, AbsorbAll;
    RunInv(r, m);
    RunInv(r, k);
    TxFacts(r.states[m], h, i);
    var tx, tx' := r.states[m].hosts[h].txs[i], r.states[k].hosts[h].txs[i];
    var n := StoredArrived(Base(h, tx), tx.arrived, NACK(e));
    SameArrivals(r, m, k, h, i, n);
    if EndedWith(tx', Conflict) {
      ConflictHearsNothing(r, k, m, h, i, n);
    }
    if EndedWith(tx', NotPermitted) {
      RefusedHeardAll(r, k, m, h, i, n);
      TxFacts(r.states[k], h, i);
      AbsorbedResponses(Base(h, tx'), tx'.arrived, n);
      NotOnlyConflicts(tx'.data.responses, e);
    }
  }

  lemma NotOnlyConflicts(rs: seq<Response>, e: ResponseError)
    requires NACK(e) in rs && e != ERR_TRANSACTION_CONFLICT
    ensures !OnlyConflicts(rs)
  {
  }

  /** Whatever arrived at an object is in the same place at any later time. */
  lemma SameArrivals(r: Run, m: nat, k: nat, h: Name, i: nat, n: nat)
    requires IsRun(r) && m < |r.states| && k < |r.states| && HasTx(r.states[m], h, i) && HasTx(r.states[k], h, i)
    requires n < |r.states[m].hosts[h].txs[i].arrived|
    ensures var tx, tx' := r.states[m].hosts[h].txs[i], r.states[k].hosts[h].txs[i];
            && tx'.data.tid == tx.data.tid && tx'.owner == tx.owner
            && (n < |tx'.arrived| ==> tx'.arrived[n] == tx.arrived[n])
            && (m <= k ==> n < |tx'.arrived|)
            && (k <= m ==> forall o :: EndedWith(tx', o) ==> EndedWith(tx, o))
  {
    hide IsRun, Grows, EndedWith, Committed;
    if m <= k {
      RunGrows(r, m, k);
      GrownTx(r.states[m], r.states[k], h, i);
    } else {
      RunGrows(r, k, m);
      GrownTx(r.states[k], r.states[m], h, i);
    }
  }

  /** A call that ended in a conflict is never given a response, before or after. */
  lemma ConflictHearsNothing(r: Run, k: nat, m: nat, h: Name, i: nat, n: nat)
    requires IsRun(r) && m < |r.states| && k < |r.states| && HasTx(r.states[m], h, i) && HasTx(r.states[k], h, i)
    requires EndedWith(r.states[k].hosts[h].txs[i], Conflict)
    requires n < |r.states[m].hosts[h].txs[i].arrived|
    ensures !r.states[m].hosts[h].txs[i].arrived[n].body.Resp?
  {
    hide IsRun, Inv, EndedWith, TxInv;
    SameArrivals(r, m, k, h, i, n);
    var l := if m <= k then k else m;
    RunInv(r, l);
    var s := r.states[l];
    assert HasTx(s, h, i) && EndedWith(s.hosts[h].txs[i], Conflict);
    if s.hosts[h].txs[i].arrived[n].body.Resp? {
      var x := RespondentVoted(s, h, i, n);
      ConflictIsSilent(s, h, i, x);
    }
  }

  lemma RespondentVoted(s: State, h: Name, i: nat, n: nat) returns (x: Name)
    requires Inv(s) && HasTx(s, h, i)
    requires n < |s.hosts[h].txs[i].arrived| && s.hosts[h].txs[i].arrived[n].body.Resp?
    ensures x in s.hosts && s.hosts[h].txs[i].data.tid in s.hosts[x].votes
  {
    hide HostInv, HostLink;
    TxFacts(s, h, i);
    var m := s.hosts[h].txs[i].arrived[n];
    x := m.peer;
    assert PacketInv(Packet(h, m), s.hosts, s.started);
  }

  /** A call that was refused had been given everything it ever is. */
  lemma RefusedHeardAll(r: Run, k: nat, m: nat, h: Name, i: nat, n: nat)
    requires IsRun(r) && m < |r.states| && k < |r.states| && HasTx(r.states[m], h, i) && HasTx(r.states[k], h, i)
    requires r.states[k].hosts[h].txs[i].owner.Replicator? && EndedWith(r.states[k].hosts[h].txs[i], NotPermitted)
    requires n < |r.states[m].hosts[h].txs[i].arrived|
    ensures n < |r.states[k].hosts[h].txs[i].arrived|
  {
    hide IsRun, Inv, TxLink, AbsorbAll;
    RunInv(r, k);
    RunInv(r, m);
    TxFacts(r.states[k], h, i);
    SendersCount(r.states[m], h, i);
    SameHostCount(r, k, m);
  }

  lemma SameHostCount(r: Run, k: nat, m: nat)
    requires IsRun(r) && k < |r.states| && m < |r.states|
    ensures |r.states[k].hosts| == |r.states[m].hosts|
  {
    hide IsRun, HostGrows;
    if k <= m { RunGrows(r, k, m); } else { RunGrows(r, m, k); }
    assert |r.states[k].hosts| == |r.states[k].hosts.Keys| && |r.states[m].hosts| == |r.states[m].hosts.Keys|;
  }

  // ---------------------------------------------------------------- the network

  /** A packet that has left the network does not come back. */
  lemma StaysGone(s: State, step: Step, p: Packet)
    requires Inv(s) && Enabled(s, step) && p in s.sent && p !in s.net
    ensures p in Apply(s, step).sent && p !in Apply(s, step).net
  {
    hide Inv, InConflict, ViewOf, HasNack, Store, Decided, Checked, Take, RegisterOwn;
    if step.Broadcast? {
      TxFacts(s, step.host, step.inc);
      SenderIsQuiet(s, step.host, step.inc);
      RequestIsUnsent(s, step.host, step.inc);
    }
    if step.Vote? {
      VoteIsNew(s, step);
      VoteIsUnsent(s, step.host, s.hosts[step.host].txs[step.inc].data.tid);
    }
  }

  lemma SenderIsQuiet(s: State, h: Name, i: nat)
    requires Inv(s) && HasTx(s, h, i) && s.hosts[h].txs[i].phase.Sending?
    ensures Quiet(s.hosts[h].txs[i])
  {
    hide Inv, TxLink, AbsorbAll;
    TxFacts(s, h, i);
  }

  lemma {:induction false} GoneForGood(r: Run, j: nat, k: nat, p: Packet)
    requires IsRun(r) && j <= k < |r.states| && p in r.states[j].sent && p !in r.states[j].net
    ensures p in r.states[k].sent && p !in r.states[k].net
    decreases k - j
  {
    hide Inv, Enabled, Apply, Initial;
    if j == k {
    } else {
      GoneForGood(r, j, k - 1, p);
      RunInv(r, k - 1);
      assert Taken(r.states[k - 1], r.steps[k - 1], r.states[k]);
      StaysGone(r.states[k - 1], r.steps[k - 1], p);
    }
  }

  /** Every packet is delivered at most once, and never after it was lost. */
  lemma AtMostOnce(r: Run, j: nat, k: nat, p: Packet)
    requires IsRun(r) && j < |r.steps| && k < |r.steps|
    requires (r.steps[j] == Deliver(p) || r.steps[j] == Drop(p)) && (r.steps[k] == Deliver(p) || r.steps[k] == Drop(p))
    ensures j == k
  {
    hide Inv, Initial, Store;
    var first, second := if j < k then j else k, if j < k then k else j;
    RunInv(r, first);
    assert Taken(r.states[first], r.steps[first], r.states[first + 1]);
    assert Taken(r.states[second], r.steps[second], r.states[second + 1]);
    InNetIsSent(r.states[first], p);
    if first < second {
      GoneForGood(r, first + 1, second, p);
    }
  }

  lemma InNetIsSent(s: State, p: Packet)
    requires Inv(s) && p in s.net
    ensures p in s.sent
  {
    hide HostInv, HostLink, PacketInv;
  }

  // ---------------------------------------------------------------- nobody is stuck

  /** Wherever a run has got to, an owner can take its next step whatever the network and
      the mirror do: any sends may fail and any may arrive, Consult may say anything but
      a conflict, a wait may time out, a packet may be lost. The only owner that cannot
      go on is a handler called to mirror without a request. */
  lemma NeverStuck(r: Run, k: nat, h: Name, i: nat)
    requires IsRun(r) && k < |r.states| && HasTx(r.states[k], h, i)
    ensures var s := r.states[k]; var tx, peers := s.hosts[h].txs[i], s.hosts.Keys - {h};
            match tx.phase
            case Checking => Enabled(s, Check(h, i))
            case Sending =>
              && (forall failed, reached :: failed <= peers && reached <= peers ==>
                    Enabled(s, Broadcast(h, i, Tried(failed), reached)))
              && Enabled(s, Broadcast(h, i, PeerIsDown, {}))
            case Voting =>
              forall consulted, reached :: consulted != NACK(ERR_TRANSACTION_CONFLICT) && reached <= peers ==>
                Enabled(s, Vote(h, i, consulted, reached))
            case Awaiting(target, _) =>
              if tx.consumed < target then
                && Enabled(s, Timeout(h, i))
                && (s.hosts[h].listener.Busy? && s.hosts[h].listener.inc == i ==> Enabled(s, Rendezvous(h)))
              else Enabled(s, Decide(h, i))
            case Mirroring =>
              tx.data.tid in s.started && (Enabled(s, MirrorReturns(h, i)) <==> s.started[tx.data.tid].initiator != h)
            case Returned(_) => Enabled(s, Step.Delete(h, i))
            case Deleted(_) => true
  {
    hide Inv, IsRun, AbsorbAll;
    var s := r.states[k];
    RunInv(r, k);
    TxFacts(s, h, i);
    var tx := s.hosts[h].txs[i];
    if tx.phase.Mirroring? {
      MirroredRequest(r, k, h, i);
    }
  }

  /** Any packet on the network may be lost, and may arrive whenever the listener of its
      host is idle. */
  lemma PacketsMove(r: Run, k: nat, p: Packet)
    requires IsRun(r) && k < |r.states| && p in r.states[k].net
    ensures Enabled(r.states[k], Drop(p)) && p.to in r.states[k].hosts
    ensures Enabled(r.states[k], Deliver(p)) <==> r.states[k].hosts[p.to].listener.Idle?
  {
    hide IsRun, TxInv, ListenerInv, HostLink, PacketInv;
    RunInv(r, k);
    PacketFacts(r.states[k], p);
    assert Owned(r.states[k].hosts[p.to]);
  }
}
