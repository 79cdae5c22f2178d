/** What the commit protocol guarantees in every run. */
module ReplicationSafety {
  import opened Names
  import opened Messages
  import opened Conflicts
  import opened Responses
  import opened Sets
  import opened Replication
  import opened ReplicationInvariant
  import opened ReplicationSteps

  // ---------------------------------------------------------------- counting messages

  /** One incarnation never holds two messages from one sender. */
  lemma OneMessagePerSender(s: State, h: Name, i: nat, j: nat, k: nat)
    requires Inv(s) && HasTx(s, h, i)
    requires j < k < |s.hosts[h].txs[i].arrived|
    ensures s.hosts[h].txs[i].arrived[j].peer != s.hosts[h].txs[i].arrived[k].peer
  {
    hide HostInv, HostLink;
    TxFacts(s, h, i);
    var tx := s.hosts[h].txs[i];
    assert PacketInv(Packet(h, tx.arrived[j]), s.hosts, s.started);
    assert PacketInv(Packet(h, tx.arrived[k]), s.hosts, s.started);
  }

  function Senders(msgs: seq<Message>): set<Name> {
    set m | m in msgs :: m.peer
  }

  /** The pigeonhole count: as many senders as messages, all of them other hosts. */
  lemma SendersCount(s: State, h: Name, i: nat)
    requires Inv(s) && HasTx(s, h, i)
    ensures Senders(s.hosts[h].txs[i].arrived) <= s.hosts.Keys - {h}
    ensures |Senders(s.hosts[h].txs[i].arrived)| == |s.hosts[h].txs[i].arrived|
    ensures |s.hosts[h].txs[i].arrived| <= |s.hosts| - 1
  {
    hide HostInv, HostLink;
    TxFacts(s, h, i);
    var tx := s.hosts[h].txs[i];
    var names := seq(|tx.arrived|, k requires 0 <= k < |tx.arrived| => tx.arrived[k].peer);
    forall j, k | 0 <= j < k < |names|
      ensures names[j] != names[k]
    {
      OneMessagePerSender(s, h, i, j, k);
    }
    DistinctSeqSize(names);
    assert Members(names) == Senders(tx.arrived) by {
      forall x | x in Senders(tx.arrived)
        ensures x in names
      {
        var m :| m in tx.arrived && m.peer == x;
        var k :| 0 <= k < |tx.arrived| && tx.arrived[k] == m;
        assert names[k] == x;
      }
    }
    forall k | 0 <= k < |tx.arrived|
      ensures tx.arrived[k].peer in s.hosts
    {
      assert PacketInv(Packet(h, tx.arrived[k]), s.hosts, s.started);
    }
    SubsetSize(Senders(tx.arrived), s.hosts.Keys - {h});
    assert |s.hosts.Keys - {h}| == |s.hosts| - 1;
  }

  /** An owner that took one message from every peer's worth of messages has heard
      from every other host, and holds nothing it has not taken. */
  lemma FullLoop(s: State, h: Name, i: nat)
    requires Inv(s) && HasTx(s, h, i)
    requires s.hosts[h].txs[i].consumed == |s.hosts| - 1
    ensures |s.hosts[h].txs[i].arrived| == s.hosts[h].txs[i].consumed
    ensures Senders(s.hosts[h].txs[i].arrived) == s.hosts.Keys - {h}
  {
    hide HostInv, HostLink;
    TxFacts(s, h, i);
    SendersCount(s, h, i);
    assert |s.hosts.Keys - {h}| == |s.hosts| - 1;
    SubsetSize(Senders(s.hosts[h].txs[i].arrived), s.hosts.Keys - {h});
  }

  /** The message a sender's place in the set stands for. */
  lemma MessageFrom(s: State, h: Name, i: nat, x: Name) returns (k: nat)
    requires Inv(s) && HasTx(s, h, i)
    requires x in Senders(s.hosts[h].txs[i].arrived)
    ensures k < |s.hosts[h].txs[i].arrived|
    ensures var m := s.hosts[h].txs[i].arrived[k];
            && m.peer == x && x in s.hosts && m.tid == s.hosts[h].txs[i].data.tid && m.tid in s.started
            && (x == s.started[m.tid].initiator ==> m == RequestMessage(s.started, m.tid))
            && (x != s.started[m.tid].initiator ==>
                  m.tid in s.hosts[x].votes && m.body == Resp(s.hosts[x].votes[m.tid]))
  {
    hide HostInv, HostLink;
    TxFacts(s, h, i);
    var tx := s.hosts[h].txs[i];
    var m :| m in tx.arrived && m.peer == x;
    k :| 0 <= k < |tx.arrived| && tx.arrived[k] == m;
    assert PacketInv(Packet(h, m), s.hosts, s.started);
  }

  // ---------------------------------------------------------------- unanimity

  ghost predicate AllVotedAck(s: State, t: Tid) {
    && t in s.started
    && forall x :: x in s.hosts && x != s.started[t].initiator ==>
         t in s.hosts[x].votes && s.hosts[x].votes[t] == ACK
  }

  /** A commit anywhere means that every host but the initiator voted ACK. */
  lemma CommitIsUnanimous(s: State, h: Name, i: nat)
    requires Inv(s) && HasTx(s, h, i) && Committed(s.hosts[h].txs[i])
    ensures AllVotedAck(s, s.hosts[h].txs[i].data.tid)
  {
    hide HostInv, HostLink, NetInv;
    TxFacts(s, h, i);
    FullLoop(s, h, i);
    var tx := s.hosts[h].txs[i];
    var t := tx.data.tid;
    forall x | x in s.hosts && x != s.started[t].initiator
      ensures t in s.hosts[x].votes && s.hosts[x].votes[t] == ACK
    {
      if x != h {
        var k := MessageFrom(s, h, i, x);
        assert !IsNack(tx.arrived[k]);
      } else {
        InitiatorExists(s, t);
        var k := MessageFrom(s, h, i, s.started[t].initiator);
        assert tx.arrived[k].body.Req?;
      }
    }
  }

  lemma InitiatorExists(s: State, t: Tid)
    requires Inv(s) && t in s.started
    ensures s.started[t].initiator in s.hosts
  {
    hide HostInv, HostLink, PacketInv;
  }

  /** ErrNotPermitted anywhere means that some host but the initiator voted NACK. */
  lemma RefusalHasANack(s: State, h: Name, i: nat)
    requires Inv(s) && HasTx(s, h, i) && EndedWith(s.hosts[h].txs[i], NotPermitted)
    ensures !AllVotedAck(s, s.hosts[h].txs[i].data.tid)
  {
    hide HostInv, HostLink;
    TxFacts(s, h, i);
    var tx := s.hosts[h].txs[i];
    var t := tx.data.tid;
    if tx.vote.Some? && tx.vote.value.NACK? {
      VoterIsNotInitiator(s, h, t);
    } else {
      var k :| 0 <= k < |tx.arrived| && IsNack(tx.arrived[k]);
      assert PacketInv(Packet(h, tx.arrived[k]), s.hosts, s.started);
    }
  }

  lemma VoterIsNotInitiator(s: State, h: Name, t: Tid)
    requires Inv(s) && h in s.hosts && t in s.hosts[h].votes
    ensures t in s.started && s.started[t].initiator != h
    ensures Heard(s.hosts[h], RequestMessage(s.started, t))
  {
    hide HostInv, TxLink, NetInv, Separate, Heard;
  }

  /** A local conflict refusal means that no host ever votes on the request. */
  lemma ConflictIsSilent(s: State, h: Name, i: nat, x: Name)
    requires Inv(s) && HasTx(s, h, i) && EndedWith(s.hosts[h].txs[i], Conflict) && x in s.hosts
    ensures s.hosts[h].txs[i].data.tid !in s.hosts[x].votes
  {
    hide Inv, EndedWith;
    QuietIsSilent(s, h, i, x);
    if s.hosts[h].txs[i].data.tid in s.hosts[x].votes {
      VoteNeedsRequest(s, x, s.hosts[h].txs[i].data.tid);
    }
  }

  lemma QuietIsSilent(s: State, h: Name, i: nat, x: Name)
    requires Inv(s) && HasTx(s, h, i) && EndedWith(s.hosts[h].txs[i], Conflict)
    ensures s.hosts[h].txs[i].data.tid in s.started
    ensures Packet(x, RequestMessage(s.started, s.hosts[h].txs[i].data.tid)) !in s.sent
  {
    hide HostInv, NetInv, Separate, Heard, VotesLink;
    TxFacts(s, h, i);
    assert Quiet(s.hosts[h].txs[i]);
  }

  lemma VoteNeedsRequest(s: State, x: Name, t: Tid)
    requires Inv(s) && x in s.hosts && t in s.hosts[x].votes
    ensures t in s.started && Packet(x, RequestMessage(s.started, t)) in s.sent
  {
    hide HostInv, NetInv, Separate, Heard, TxLink;
  }

  // ---------------------------------------------------------------- runs only grow

  ghost predicate TxGrows(tx: Tx, tx': Tx) {
    && tx'.data.tid == tx.data.tid && tx'.owner == tx.owner
    && (Committed(tx) ==> Committed(tx'))
    && (forall o :: EndedWith(tx, o) ==> EndedWith(tx', o))
    && tx.arrived <= tx'.arrived
  }

  ghost predicate HostGrows(host: Host, host': Host) {
    && |host.txs| <= |host'.txs|
    && (forall i :: 0 <= i < |host.txs| ==> TxGrows(host.txs[i], host'.txs[i]))
    && (forall t :: t in host.votes ==> t in host'.votes && host'.votes[t] == host.votes[t])
  }

  ghost predicate Grows(s: State, s': State) {
    && s'.hosts.Keys == s.hosts.Keys
    && (forall h :: h in s.hosts ==> HostGrows(s.hosts[h], s'.hosts[h]))
    && (forall t :: t in s.started ==> t in s'.started && s'.started[t] == s.started[t])
  }

  lemma SameHostGrows(host: Host)
    ensures HostGrows(host, host)
  {
  }

  lemma OneHostGrows(s: State, s': State, h: Name)
    requires h in s.hosts && h in s'.hosts && s'.hosts == s.hosts[h := s'.hosts[h]]
    requires HostGrows(s.hosts[h], s'.hosts[h])
    requires forall t :: t in s.started ==> t in s'.started && s'.started[t] == s.started[t]
    ensures Grows(s, s')
  {
    forall k | k in s.hosts
      ensures HostGrows(s.hosts[k], s'.hosts[k])
    {
      SameHostGrows(s.hosts[k]);
    }
  }

  lemma SetTxGrows(host: Host, i: nat, tx: Tx, host': Host)
    requires i < |host.txs| && TxGrows(host.txs[i], tx)
    requires host'.txs == host.txs[i := tx]
    requires forall t :: t in host.votes ==> t in host'.votes && host'.votes[t] == host.votes[t]
    ensures HostGrows(host, host')
  {
  }

  lemma AddTxGrows(host: Host, tx: Tx, host': Host)
    requires host'.txs == host.txs + [tx] && host'.votes == host.votes
    ensures HostGrows(host, host')
  {
  }

  /** Nothing a step does takes back an outcome, a vote, a delivery or a request. */
  lemma StepGrows(s: State, step: Step)
    requires Inv(s) && Enabled(s, step)
    ensures Grows(s, Apply(s, step))
  {
    hide Inv, HostGrows, Grows, InConflict, HasNack;
    var s' := Apply(s, step);
    match step {
      case Start(h, tid, request) =>
        AddTxGrows(s.hosts[h], s'.hosts[h].txs[|s.hosts[h].txs|], s'.hosts[h]);
        OneHostGrows(s, s', h);
      case Drop(p) =>
        var h := SomeHost(s);
        SameHostGrows(s.hosts[h]);
        OneHostGrows(s, s', h);
      case Deliver(p) =>
        var host, host' := s.hosts[p.to], s'.hosts[p.to];
        if p.msg.tid in host.registry {
          var i := host.registry[p.msg.tid];
          SetTxGrows(host, i, host'.txs[i], host');
        } else {
          AddTxGrows(host, host'.txs[|host.txs|], host');
        }
        OneHostGrows(s, s', p.to);
      case Rendezvous(h) =>
        var i := s.hosts[h].listener.inc;
        SetTxGrows(s.hosts[h], i, s'.hosts[h].txs[i], s'.hosts[h]);
        OneHostGrows(s, s', h);
      case Vote(h, i, consulted, reached) =>
        VoteIsNew(s, step);
        SetTxGrows(s.hosts[h], i, s'.hosts[h].txs[i], s'.hosts[h]);
        OneHostGrows(s, s', h);
      case _ =>
        var h, i := step.host, step.inc;
        OwnerGrows(s, step);
        OneHostGrows(s, s', h);
    }
  }

  lemma SomeHost(s: State) returns (h: Name)
    requires Inv(s)
    ensures h in s.hosts
  {
    hide HostInv, HostLink, NetInv;
    assert s.hosts.Keys != {};
    h :| h in s.hosts.Keys;
  }

  /** The steps that only move one owner on. */
  lemma OwnerGrows(s: State, step: Step)
    requires Enabled(s, step)
    requires step.Check? || step.Broadcast? || step.Timeout? || step.Decide? || step.MirrorReturns? || step.Delete?
    ensures step.host in s.hosts && step.host in Apply(s, step).hosts
    ensures HostGrows(s.hosts[step.host], Apply(s, step).hosts[step.host])
  {
    hide HostGrows, InConflict, HasNack;
    var s', h, i := Apply(s, step), step.host, step.inc;
    SetTxGrows(s.hosts[h], i, s'.hosts[h].txs[i], s'.hosts[h]);
  }

  lemma VoteIsNew(s: State, step: Step)
    requires Inv(s) && Enabled(s, step) && step.Vote?
    ensures var tid := s.hosts[step.host].txs[step.inc].data.tid;
            && tid !in s.hosts[step.host].votes && tid in s.started
            && s.hosts[step.host].txs[step.inc].arrived[s.hosts[step.host].txs[step.inc].consumed - 1]
                 == RequestMessage(s.started, tid)
  {
    hide HostInv, HostLink, NetInv, TxInv;
    TxFacts(s, step.host, step.inc);
    VoterFacts(step.host, s.hosts[step.host], step.inc, |s.hosts| - 1, s.net, s.sent, s.started);
  }

  lemma GrowsReflexive(s: State)
    ensures Grows(s, s)
  {
  }

  lemma GrowsTransitive(s: State, s': State, s'': State)
    requires Grows(s, s') && Grows(s', s'')
    ensures Grows(s, s'')
  {
    forall h | h in s.hosts
      ensures HostGrows(s.hosts[h], s''.hosts[h])
    {
      assert HostGrows(s.hosts[h], s'.hosts[h]) && HostGrows(s'.hosts[h], s''.hosts[h]);
      forall i | 0 <= i < |s.hosts[h].txs|
        ensures TxGrows(s.hosts[h].txs[i], s''.hosts[h].txs[i])
      {
        assert TxGrows(s.hosts[h].txs[i], s'.hosts[h].txs[i]);
        assert TxGrows(s'.hosts[h].txs[i], s''.hosts[h].txs[i]);
      }
    }
  }

  lemma {:induction false} RunGrows(r: Run, j: nat, k: nat)
    requires IsRun(r) && j <= k < |r.states|
    ensures Grows(r.states[j], r.states[k])
    decreases k - j
  {
    hide Grows, Inv, Enabled, Apply, Initial;
    if j == k {
      GrowsReflexive(r.states[j]);
    } else {
      RunGrows(r, j, k - 1);
      RunInv(r, k - 1);
      assert Taken(r.states[k - 1], r.steps[k - 1], r.states[k]);
      StepGrows(r.states[k - 1], r.steps[k - 1]);
      GrowsTransitive(r.states[j], r.states[k - 1], r.states[k]);
    }
  }
}
