/** Every step of the commit protocol keeps the invariant. */
module ReplicationSteps {
  import opened Names
  import opened Messages
  import opened Registry
  import opened Conflicts
  import opened Responses
  import opened Replication
  import opened ReplicationInvariant

  // ---------------------------------------------------------------- a new object

  /** File a new object under `tid`, which no entry uses. */
  function AddTx(host: Host, tx: Tx): Host {
    host.(registry := host.registry[tx.data.tid := |host.txs|], txs := host.txs + [tx])
  }

  lemma AddTxOwned(host: Host, tx: Tx)
    requires Owned(host) && tx.data.tid !in host.registry && !tx.phase.Deleted?
    ensures Owned(AddTx(host, tx))
  {
  }

  lemma AddTxLink(h: Name, host: Host, tx: Tx, net: set<Packet>, sent: set<Packet>, log: Log)
    requires HostLink(h, host, net, sent, log)
    requires TxLink(h, tx, host.votes, net, sent, log)
    requires forall i, m :: 0 <= i < |host.txs| && m in host.txs[i].arrived ==> m !in tx.arrived
    requires tx.owner.Replicator? ==> forall i :: 0 <= i < |host.txs| ==> host.txs[i].data.tid != tx.data.tid
    requires Unvoted(tx) ==> tx.data.tid !in host.votes
    requires Quiet(tx) ==> forall p :: p in sent && p.msg.tid == tx.data.tid ==> p.msg.peer != h
    ensures HostLink(h, AddTx(host, tx), net, sent, log)
  {
    hide TxLink, VotesLink;
    HeardGrows(host, AddTx(host, tx));
  }

  lemma StartHost(h: Name, host: Host, tid: Tid, request: Request, peers: nat)
    requires HostInv(h, host, peers) && tid !in host.registry
    ensures HostInv(h, RegisterOwn(host, Message(tid, h, Req(request))), peers)
  {
    var msg := Message(tid, h, Req(request));
    var tx := Tx(Absorb(Fresh(tid), msg), Replicator, [], 0, None, Checking);
    hide TxInv;
    assert RegisterOwn(host, msg) == AddTx(host, tx);
    OwnTx(h, tid, request, peers);
    AddTxOwned(host, tx);
  }

  lemma OwnTx(h: Name, tid: Tid, request: Request, peers: nat)
    ensures TxInv(h, Tx(Absorb(Fresh(tid), Message(tid, h, Req(request))), Replicator, [], 0, None, Checking), peers)
  {
  }

  /** What the invariant says of one object. */
  lemma TxFacts(s: State, h: Name, i: nat)
    requires Inv(s) && HasTx(s, h, i)
    ensures TxInv(h, s.hosts[h].txs[i], |s.hosts| - 1)
    ensures TxLink(h, s.hosts[h].txs[i], s.hosts[h].votes, s.net, s.sent, s.started)
  {
    hide TxInv, TxLink, VotesLink, Separate, ListenerInv, Owned, NetInv;
  }

  lemma StartLink(h: Name, host: Host, tid: Tid, request: Request, net: set<Packet>, sent: set<Packet>, log: Log)
    requires HostLink(h, host, net, sent, log)
    requires tid !in log && forall p :: p in sent ==> p.msg.tid in log
    ensures HostLink(h, RegisterOwn(host, Message(tid, h, Req(request))), net, sent, log[tid := Issued(h, request)])
  {
    var msg := Message(tid, h, Req(request));
    var tx := Tx(Absorb(Fresh(tid), msg), Replicator, [], 0, None, Checking);
    var log' := log[tid := Issued(h, request)];
    HostLinkFrame(h, host, net, sent, log, net, sent, log');
    assert forall i :: 0 <= i < |host.txs| ==> host.txs[i].data.tid in log;
    AddTxLink(h, host, tx, net, sent, log');
    assert RegisterOwn(host, msg) == AddTx(host, tx);
  }

  lemma StartKeeps(s: State, h: Name, tid: Tid, request: Request)
    requires Inv(s) && Enabled(s, Start(h, tid, request))
    ensures Inv(Apply(s, Start(h, tid, request)))
  {
    hide HostInv, HostLink, NetInv;
    var s' := Apply(s, Start(h, tid, request));
    NotRegistered(h, s.hosts[h], s.net, s.sent, s.started, |s.hosts| - 1, tid);
    StartHost(h, s.hosts[h], tid, request, |s.hosts| - 1);
    SentIsLogged(s);
    StartLink(h, s.hosts[h], tid, request, s.net, s.sent, s.started);
    SameVotesNet(s, s', h);
    OneHostMoves(s, s', h);
  }

  lemma NotRegistered(h: Name, host: Host, net: set<Packet>, sent: set<Packet>, log: Log, peers: nat, tid: Tid)
    requires HostInv(h, host, peers) && HostLink(h, host, net, sent, log) && tid !in log
    ensures tid !in host.registry
  {
  }

  lemma SentIsLogged(s: State)
    requires NetInv(s)
    ensures forall p :: p in s.sent ==> p.msg.tid in s.started
  {
  }

  /** The network part, when no vote is cast and nothing new is sent. */
  lemma SameVotesNet(s: State, s': State, h: Name)
    requires NetInv(s) && h in s.hosts && h in s'.hosts
    requires s'.hosts == s.hosts[h := s'.hosts[h]] && s'.hosts[h].votes == s.hosts[h].votes
    requires s'.net <= s.net && s'.sent == s.sent
    requires forall t :: t in s.started ==> t in s'.started && s'.started[t] == s.started[t]
    requires forall t :: t in s'.started && t !in s.started ==> s'.started[t].initiator in s.hosts
    ensures NetInv(s')
  {
    forall p | p in s'.sent
      ensures PacketInv(p, s'.hosts, s'.started)
    {
      assert PacketInv(p, s.hosts, s.started);
    }
  }

  // ---------------------------------------------------------------- one phase change

  /** A step that only moves one owner on and perhaps the clock. */
  lemma PhaseChange(s: State, h: Name, i: nat, tx: Tx, clock: Uint64)
    requires Inv(s) && HasTx(s, h, i)
    requires TxInv(h, tx, |s.hosts| - 1)
    requires TxLink(h, tx, s.hosts[h].votes, s.net, s.sent, s.started)
    requires tx.data == s.hosts[h].txs[i].data && tx.arrived == s.hosts[h].txs[i].arrived
    requires tx.owner == s.hosts[h].txs[i].owner && tx.consumed == s.hosts[h].txs[i].consumed
    requires tx.phase.Deleted? == s.hosts[h].txs[i].phase.Deleted?
    requires Unvoted(tx) ==> Unvoted(s.hosts[h].txs[i])
    requires Quiet(tx) ==> Quiet(s.hosts[h].txs[i])
    ensures Inv(s.(hosts := s.hosts[h := SetTx(s.hosts[h], i, tx).(clock := clock)]))
  {
    hide HostInv, HostLink, NetInv, TxInv, TxLink, Unvoted, Quiet;
    var host := s.hosts[h];
    var s' := s.(hosts := s.hosts[h := SetTx(host, i, tx).(clock := clock)]);
    SetTxInv(h, host, i, tx, |s.hosts| - 1);
    SetTxLink(h, host, i, tx, s.net, s.sent, s.started);
    ClockIrrelevant(h, SetTx(host, i, tx), clock, |s.hosts| - 1, s.net, s.sent, s.started);
    SameVotesNet(s, s', h);
    OneHostMoves(s, s', h);
  }

  lemma ClockIrrelevant(h: Name, host: Host, clock: Uint64, peers: nat, net: set<Packet>, sent: set<Packet>, log: Log)
    requires HostInv(h, host, peers) && HostLink(h, host, net, sent, log)
    ensures HostInv(h, host.(clock := clock), peers) && HostLink(h, host.(clock := clock), net, sent, log)
  {
    hide TxInv, TxLink, VotesLink;
  }

  /** A refused request is beaten by one that was issued. */
  lemma RefusedIsBeaten(h: Name, host: Host, net: set<Packet>, sent: set<Packet>, log: Log, msg: Message)
    requires HostLink(h, host, net, sent, log)
    requires msg.tid in log && msg == RequestMessage(log, msg.tid)
    requires InConflict(ViewOf(host), msg)
    ensures Beaten(log, msg.tid)
  {
    var t :| t in ViewOf(host) && Refuses(ViewOf(host)[t], msg);
    var tx := host.txs[host.registry[t]];
    assert TxLink(h, tx, host.votes, net, sent, log);
    assert Beats(log[tx.data.tid], log[msg.tid]);
  }

  /** A phase that promises nothing new. */
  lemma PlainPhase(h: Name, tx: Tx, phase: Phase, peers: nat)
    requires TxInv(h, tx, peers)
    requires
      || (tx.phase.Checking? && tx.owner.Replicator? && (phase == Returned(Conflict) || phase == Phase.Sending))
      || (tx.phase.Awaiting? && tx.consumed < tx.phase.target && phase == Returned(TimedOut))
      || (tx.phase.Mirroring? && phase == Returned(Success))
    ensures TxInv(h, tx.(phase := phase), peers)
  {
    hide AbsorbAll;
    assert Base(h, tx) == Base(h, tx.(phase := phase));
  }

  lemma CheckerFacts(h: Name, tx: Tx, peers: nat, votes: map<Tid, Response>,
                     net: set<Packet>, sent: set<Packet>, log: Log)
    requires TxInv(h, tx, peers) && TxLink(h, tx, votes, net, sent, log) && tx.phase.Checking?
    ensures tx.owner.Replicator? && tx.data.tid in log && tx.data.request.Some?
    ensures Message(tx.data.tid, h, Req(tx.data.request.value)) == RequestMessage(log, tx.data.tid)
    ensures TxLink(h, tx.(phase := Phase.Sending), votes, net, sent, log)
    ensures Beaten(log, tx.data.tid) ==> TxLink(h, tx.(phase := Returned(Conflict)), votes, net, sent, log)
  {
    hide AbsorbAll, Beaten;
  }

  lemma CheckKeeps(s: State, h: Name, i: nat)
    requires Inv(s) && Enabled(s, Check(h, i))
    ensures Inv(Apply(s, Check(h, i)))
  {
    hide HostInv, HostLink, NetInv, TxInv, TxLink, InConflict, Beaten;
    var host, peers := s.hosts[h], |s.hosts| - 1;
    var tx := host.txs[i];
    TxFacts(s, h, i);
    CheckerFacts(h, tx, peers, host.votes, s.net, s.sent, s.started);
    var msg := Message(tx.data.tid, h, Req(tx.data.request.value));
    if InConflict(ViewOf(host), msg) {
      RefusedIsBeaten(h, host, s.net, s.sent, s.started, msg);
      PlainPhase(h, tx, Returned(Conflict), peers);
      PhaseChange(s, h, i, tx.(phase := Returned(Conflict)), Bump(host.clock));
    } else {
      PlainPhase(h, tx, Phase.Sending, peers);
      PhaseChange(s, h, i, tx.(phase := Phase.Sending), host.clock);
      SameClock(host, i, tx.(phase := Phase.Sending));
    }
  }

  lemma SameClock(host: Host, i: nat, tx: Tx)
    requires i < |host.txs|
    ensures SetTx(host, i, tx).(clock := host.clock) == SetTx(host, i, tx)
  {
  }

  lemma TimeoutKeeps(s: State, h: Name, i: nat)
    requires Inv(s) && Enabled(s, Timeout(h, i))
    ensures Inv(Apply(s, Timeout(h, i)))
  {
    hide HostInv, HostLink, NetInv, TxInv;
    var host := s.hosts[h];
    var tx := host.txs[i].(phase := Returned(TimedOut));
    TxFacts(s, h, i);
    PlainPhase(h, host.txs[i], Returned(TimedOut), |s.hosts| - 1);
    PhaseChange(s, h, i, tx, host.clock);
    SameClock(host, i, tx);
  }

  lemma MirrorKeeps(s: State, h: Name, i: nat)
    requires Inv(s) && Enabled(s, MirrorReturns(h, i))
    ensures Inv(Apply(s, MirrorReturns(h, i)))
  {
    hide HostInv, HostLink, NetInv, TxInv;
    var host := s.hosts[h];
    var tx := host.txs[i].(phase := Returned(Success));
    TxFacts(s, h, i);
    PlainPhase(h, host.txs[i], Returned(Success), |s.hosts| - 1);
    PhaseChange(s, h, i, tx, host.clock);
    SameClock(host, i, tx);
  }

  /** The decision agrees with the messages that arrived. */
  lemma DecidedTx(h: Name, tx: Tx, peers: nat, tx': Tx)
    requires TxInv(h, tx, peers) && |tx.arrived| >= tx.consumed
    requires tx.phase.Awaiting? && tx.consumed == tx.phase.target
    requires tx' == tx.(phase := tx'.phase)
    requires if tx.owner.Replicator? then
               if tx.phase.partial then tx'.phase == Returned(SendError)
               else tx'.phase == Returned(if HasNack(tx.data.responses) then NotPermitted else Success)
             else
               if (tx.vote.None? || tx.vote.value.ACK?) && !HasNack(tx.data.responses) then tx'.phase == Mirroring
               else tx'.phase == Returned(NotPermitted)
    ensures TxInv(h, tx', peers)
  {
    AbsorbedNacks(Base(h, tx), tx.arrived);
    assert Base(h, tx) == Base(h, tx');
  }

  lemma DecidedShape(h: Name, host: Host, i: nat)
    requires i < |host.txs| && host.txs[i].phase.Awaiting?
    ensures var host', tx := Decided(host, i), host.txs[i];
            && |host'.txs| == |host.txs|
            && host' == SetTx(host, i, host'.txs[i]).(clock := host'.clock)
            && host'.txs[i] == tx.(phase := host'.txs[i].phase)
            && !host'.txs[i].phase.Deleted? && !EndedWith(host'.txs[i], Conflict)
            && !host'.txs[i].phase.Checking? && !host'.txs[i].phase.Sending?
            && (if tx.owner.Replicator? then
                  if tx.phase.partial then host'.txs[i].phase == Returned(SendError)
                  else host'.txs[i].phase == Returned(if HasNack(tx.data.responses) then NotPermitted else Success)
                else
                  if (tx.vote.None? || tx.vote.value.ACK?) && !HasNack(tx.data.responses) then
                    host'.txs[i].phase == Mirroring
                  else host'.txs[i].phase == Returned(NotPermitted))
  {
  }

  lemma DecideKeeps(s: State, h: Name, i: nat)
    requires Inv(s) && Enabled(s, Decide(h, i))
    ensures Inv(Apply(s, Decide(h, i)))
  {
    hide HostInv, HostLink, NetInv, Decided, HasNack;
    var host := s.hosts[h];
    var tx := host.txs[i];
    DecidedShape(h, host, i);
    var host' := Decided(host, i);
    var tx' := host'.txs[i];
    TxFacts(s, h, i);
    DecidedTx(h, tx, |s.hosts| - 1, tx');
    assert TxLink(h, tx', host.votes, s.net, s.sent, s.started);
    hide TxInv, TxLink;
    PhaseChange(s, h, i, tx', host'.clock);
  }

  // ---------------------------------------------------------------- delete

  lemma DeletedTx(h: Name, tx: Tx, peers: nat)
    requires TxInv(h, tx, peers) && tx.phase.Returned?
    ensures TxInv(h, tx.(phase := Deleted(tx.phase.outcome)), peers)
  {
    hide AbsorbAll;
    assert Base(h, tx) == Base(h, tx.(phase := Deleted(tx.phase.outcome)));
  }

  lemma DeleteHost(h: Name, host: Host, i: nat, tx: Tx, peers: nat)
    requires HostInv(h, host, peers) && i < |host.txs| && host.txs[i].phase.Returned?
    requires tx == host.txs[i].(phase := Deleted(host.txs[i].phase.outcome))
    ensures HostInv(h, SetTx(host, i, tx).(registry := host.registry - {tx.data.tid}), peers)
  {
    hide TxInv;
    DeletedTx(h, host.txs[i], peers);
  }

  lemma RegistryIrrelevant(h: Name, host: Host, registry: map<Tid, nat>, net: set<Packet>, sent: set<Packet>, log: Log)
    requires HostLink(h, host, net, sent, log)
    ensures HostLink(h, host.(registry := registry), net, sent, log)
  {
    hide TxLink, VotesLink;
  }

  lemma DeleteLink(h: Name, host: Host, i: nat, tx: Tx, net: set<Packet>, sent: set<Packet>, log: Log)
    requires HostLink(h, host, net, sent, log) && i < |host.txs| && host.txs[i].phase.Returned?
    requires tx == host.txs[i].(phase := Deleted(host.txs[i].phase.outcome))
    ensures HostLink(h, SetTx(host, i, tx).(registry := host.registry - {tx.data.tid}), net, sent, log)
  {
    assert TxLink(h, host.txs[i], host.votes, net, sent, log);
    assert TxLink(h, tx, host.votes, net, sent, log);
    hide TxLink, VotesLink, HostLink;
    SetTxLink(h, host, i, tx, net, sent, log);
    RegistryIrrelevant(h, SetTx(host, i, tx), host.registry - {tx.data.tid}, net, sent, log);
  }

  lemma DeleteKeeps(s: State, h: Name, i: nat)
    requires Inv(s) && Enabled(s, Step.Delete(h, i))
    ensures Inv(Apply(s, Step.Delete(h, i)))
  {
    hide HostInv, HostLink, NetInv;
    var host := s.hosts[h];
    var s' := Apply(s, Step.Delete(h, i));
    var tx := host.txs[i].(phase := Deleted(host.txs[i].phase.outcome));
    DeleteHost(h, host, i, tx, |s.hosts| - 1);
    DeleteLink(h, host, i, tx, s.net, s.sent, s.started);
    SameVotesNet(s, s', h);
    OneHostMoves(s, s', h);
  }

  // ---------------------------------------------------------------- drop

  lemma DropKeeps(s: State, p: Packet)
    requires Inv(s) && Enabled(s, Drop(p))
    ensures Inv(Apply(s, Drop(p)))
  {
    hide HostInv, HostLink, PacketInv;
    var s' := Apply(s, Drop(p));
    forall h | h in s'.hosts
      ensures HostLink(h, s'.hosts[h], s'.net, s'.sent, s'.started)
    {
      HostLinkFrame(h, s.hosts[h], s.net, s.sent, s.started, s'.net, s'.sent, s'.started);
    }

  }

  // ---------------------------------------------------------------- broadcast

  /** A Replicate call that sends its request. */
  lemma BroadcastTxLinks(h: Name, host: Host, i: nat, tx: Tx, net: set<Packet>, sent: set<Packet>, log: Log,
                         packets: set<Packet>)
    requires forall j :: 0 <= j < |host.txs| ==> TxLink(h, host.txs[j], host.votes, net, sent, log)
    requires i < |host.txs| && tx == host.txs[i].(phase := tx.phase) && !EndedWith(tx, Conflict)
    requires packets !! sent
    ensures var host' := SetTx(host, i, tx);
            forall j :: 0 <= j < |host'.txs| ==>
              TxLink(h, host'.txs[j], host'.votes, net + packets, sent + packets, log)
  {
    var host' := SetTx(host, i, tx);
    forall j | 0 <= j < |host'.txs|
      ensures TxLink(h, host'.txs[j], host'.votes, net + packets, sent + packets, log)
    {
      TxLinkFrame(h, host.txs[j], host.votes, net, sent, log, net + packets, sent + packets, log);
    }
  }

  lemma BroadcastLink(h: Name, host: Host, i: nat, tx: Tx, net: set<Packet>, sent: set<Packet>, log: Log,
                      packets: set<Packet>)
    requires HostLink(h, host, net, sent, log) && i < |host.txs|
    requires host.txs[i].phase.Sending? && host.txs[i].owner.Replicator?
    requires tx == host.txs[i].(phase := tx.phase) && !Quiet(tx) && !EndedWith(tx, Conflict)
    requires packets !! sent
    requires forall p :: p in packets ==> p.msg.tid == tx.data.tid
    ensures HostLink(h, SetTx(host, i, tx), net + packets, sent + packets, log)
  {
    hide TxLink, VotesLink;
    var host' := SetTx(host, i, tx);
    BroadcastTxLinks(h, host, i, tx, net, sent, log, packets);
    VotesLinkFrame(h, host.votes, net, sent, log, net + packets, sent + packets, log);
    SeparateSame(host, host');
    HeardGrows(host, host');
    forall j, p | 0 <= j < |host'.txs| && Quiet(host'.txs[j]) && p in sent + packets
               && p.msg.tid == host'.txs[j].data.tid
      ensures p.msg.peer != h
    {
      assert j != i;
      if p in packets {
        assert false;
      }
    }
  }

  lemma BroadcastNet(s: State, s': State, h: Name, i: nat, packets: set<Packet>)
    requires NetInv(s) && HasTx(s, h, i) && h in s'.hosts
    requires s'.hosts == s.hosts[h := s'.hosts[h]] && s'.hosts[h].votes == s.hosts[h].votes
    requires s'.net == s.net + packets && s'.sent == s.sent + packets && s'.started == s.started
    requires forall p :: p in packets ==>
               && p.to in s.hosts && p.to != h
               && p.msg.peer == h && p.msg.tid in s.started && p.msg == RequestMessage(s.started, p.msg.tid)
    ensures NetInv(s')
  {
    forall p | p in s'.sent
      ensures PacketInv(p, s'.hosts, s'.started)
    {
      if p in s.sent {
        assert PacketInv(p, s.hosts, s.started);
      }
    }
  }

  /** Nothing a Quiet call is about to send has been sent before. */
  lemma QuietIsUnsent(h: Name, host: Host, i: nat, net: set<Packet>, sent: set<Packet>, log: Log, packets: set<Packet>)
    requires HostLink(h, host, net, sent, log) && i < |host.txs| && Quiet(host.txs[i])
    requires forall p :: p in packets ==> p.msg.tid == host.txs[i].data.tid && p.msg.peer == h
    ensures packets !! sent
  {
  }

  lemma BroadcastTx(h: Name, tx: Tx, result: BroadcastResult, peers: nat)
    requires TxInv(h, tx, peers) && tx.phase.Sending? && peers > 0
    ensures var tx' := tx.(phase := AfterBroadcast(result, peers));
            TxInv(h, tx', peers) && !Quiet(tx') && !EndedWith(tx', Conflict) && !tx'.phase.Deleted?
  {
    hide AbsorbAll;
    assert Base(h, tx) == Base(h, tx.(phase := AfterBroadcast(result, peers)));
  }

  /** Who sends is the initiator, and what it sends is its request. */
  lemma SenderFacts(h: Name, tx: Tx, peers: nat, votes: map<Tid, Response>,
                    net: set<Packet>, sent: set<Packet>, log: Log)
    requires TxInv(h, tx, peers) && TxLink(h, tx, votes, net, sent, log) && tx.phase.Sending?
    ensures tx.owner.Replicator? && Quiet(tx) && tx.data.tid in log && tx.data.request.Some?
    ensures Message(tx.data.tid, h, Req(tx.data.request.value)) == RequestMessage(log, tx.data.tid)
  {
    hide AbsorbAll;
  }

  lemma BroadcastKeeps(s: State, h: Name, i: nat, result: BroadcastResult, reached: set<Name>)
    requires Inv(s) && Enabled(s, Broadcast(h, i, result, reached))
    ensures Inv(Apply(s, Broadcast(h, i, result, reached)))
  {
    hide HostInv, HostLink, NetInv;
    var host, peers := s.hosts[h], |s.hosts| - 1;
    var tx := host.txs[i];
    var tx' := tx.(phase := AfterBroadcast(result, peers));
    var packets := Packets(Message(tx.data.tid, h, Req(tx.data.request.value)), reached);
    var s' := Apply(s, Broadcast(h, i, result, reached));
    TxFacts(s, h, i);
    BroadcastTx(h, tx, result, peers);
    SenderFacts(h, tx, peers, host.votes, s.net, s.sent, s.started);
    hide TxInv, TxLink, AfterBroadcast;
    QuietIsUnsent(h, host, i, s.net, s.sent, s.started, packets);
    BroadcastLink(h, host, i, tx', s.net, s.sent, s.started, packets);
    SetTxInv(h, host, i, tx', peers);
    BroadcastNet(s, s', h, i, packets);
    OneHostMoves(s, s', h);
  }

  // ---------------------------------------------------------------- deliver

  lemma StoreTx(h: Name, tx: Tx, msg: Message, peers: nat)
    requires TxInv(h, tx, peers)
    requires msg.tid == tx.data.tid && msg.peer != h && msg !in tx.arrived
    requires tx.owner.Replicator? ==> msg.body.Resp?
    ensures TxInv(h, tx.(data := Absorb(tx.data, msg), arrived := tx.arrived + [msg]), peers)
  {
    var tx' := tx.(data := Absorb(tx.data, msg), arrived := tx.arrived + [msg]);
    assert tx'.arrived[..|tx'.arrived| - 1] == tx.arrived;
    assert Base(h, tx') == Base(h, tx);
  }

  lemma StoreHost(h: Name, host: Host, msg: Message, peers: nat)
    requires HostInv(h, host, peers) && host.listener.Idle?
    requires msg.peer != h
    requires forall i :: 0 <= i < |host.txs| ==> msg !in host.txs[i].arrived
    requires forall i :: 0 <= i < |host.txs| && host.txs[i].data.tid == msg.tid && host.txs[i].owner.Replicator? ==>
               msg.body.Resp?
    ensures HostInv(h, Store(host, msg, peers), peers)
  {
    hide TxInv;
    if msg.tid in host.registry {
      StoreTx(h, host.txs[host.registry[msg.tid]], msg, peers);
    } else {
      NewHandlerTx(h, msg, peers);
    }
  }

  lemma NewHandlerTx(h: Name, msg: Message, peers: nat)
    requires msg.peer != h
    ensures TxInv(h, Tx(Absorb(Fresh(msg.tid), msg), Handler, [msg], 0, None, Awaiting(peers, false)), peers)
  {
    var tx := Tx(Absorb(Fresh(msg.tid), msg), Handler, [msg], 0, None, Awaiting(peers, false));
    assert tx.arrived[..0] == [];
    assert AbsorbAll(Fresh(msg.tid), []) == Fresh(msg.tid);
  }

  /** What the network invariant says of a packet in flight. */
  lemma PacketFacts(s: State, p: Packet)
    requires NetInv(s) && p in s.net
    ensures p in s.sent && p.to in s.hosts && p.to != p.msg.peer && p.msg.tid in s.started
    ensures p.msg.body.Req? ==> p.msg == RequestMessage(s.started, p.msg.tid)
    ensures p.msg.body.Resp? ==> p.msg.peer != s.started[p.msg.tid].initiator
  {
    assert PacketInv(p, s.hosts, s.started);
  }

  lemma NotYetArrived(h: Name, host: Host, net: set<Packet>, sent: set<Packet>, log: Log, msg: Message)
    requires HostLink(h, host, net, sent, log) && Packet(h, msg) in net
    requires msg.tid in log && msg.peer != h
    requires msg.body.Req? ==> msg.peer == log[msg.tid].initiator
    ensures forall i :: 0 <= i < |host.txs| ==> msg !in host.txs[i].arrived
    ensures forall i :: 0 <= i < |host.txs| && host.txs[i].data.tid == msg.tid && host.txs[i].owner.Replicator? ==>
              msg.body.Resp?
  {
    forall i | 0 <= i < |host.txs|
      ensures msg !in host.txs[i].arrived
      ensures host.txs[i].data.tid == msg.tid && host.txs[i].owner.Replicator? ==> msg.body.Resp?
    {
      assert TxLink(h, host.txs[i], host.votes, net, sent, log);
    }
  }

  lemma StoreTxLink(h: Name, tx: Tx, votes: map<Tid, Response>,
                    net: set<Packet>, sent: set<Packet>, log: Log, msg: Message)
    requires TxLink(h, tx, votes, net, sent, log)
    requires msg.tid == tx.data.tid && Packet(h, msg) in sent
    requires msg.body.Req? ==> msg == RequestMessage(log, msg.tid) && tx.owner.Handler?
    requires msg.body.Resp? ==> msg.peer != log[msg.tid].initiator
    ensures TxLink(h, tx.(data := Absorb(tx.data, msg), arrived := tx.arrived + [msg]), votes,
                   net - {Packet(h, msg)}, sent, log)
  {
  }

  lemma NewHandlerLink(h: Name, votes: map<Tid, Response>, net: set<Packet>, sent: set<Packet>, log: Log,
                       msg: Message, peers: nat)
    requires msg.tid in log && Packet(h, msg) in sent
    requires msg.body.Req? ==> msg == RequestMessage(log, msg.tid)
    requires msg.body.Resp? ==> msg.peer != log[msg.tid].initiator
    ensures TxLink(h, Tx(Absorb(Fresh(msg.tid), msg), Handler, [msg], 0, None, Awaiting(peers, false)), votes,
                   net - {Packet(h, msg)}, sent, log)
  {
  }

  /** A vote on the request of `msg` cannot have been cast before it arrived. */
  lemma NoVoteBefore(h: Name, host: Host, net: set<Packet>, sent: set<Packet>, log: Log, msg: Message)
    requires HostLink(h, host, net, sent, log) && Packet(h, msg) in net
    requires msg.tid in log && msg == RequestMessage(log, msg.tid)
    ensures msg.tid !in host.votes
  {
  }

  lemma StoreLink(h: Name, host: Host, net: set<Packet>, sent: set<Packet>, log: Log, msg: Message, peers: nat)
    requires Owned(host)
    requires HostLink(h, host, net, sent, log) && Packet(h, msg) in net && Packet(h, msg) in sent
    requires msg.tid in log && msg.peer != h
    requires msg.body.Req? ==> msg == RequestMessage(log, msg.tid)
    requires msg.body.Resp? ==> msg.peer != log[msg.tid].initiator
    ensures HostLink(h, Store(host, msg, peers), net - {Packet(h, msg)}, sent, log)
  {
    hide TxLink, VotesLink, Owned;
    var net' := net - {Packet(h, msg)};
    if msg.body.Req? {
      NoVoteBefore(h, host, net, sent, log, msg);
    }
    NotYetArrived(h, host, net, sent, log, msg);
    HostLinkFrame(h, host, net, sent, log, net', sent, log);
    if msg.tid in host.registry {
      var i := RegisteredTx(host, msg.tid);
      StoreExisting(h, host, i, net, sent, log, msg);
      StoreExistingLink(h, host, i, net', sent, log, msg, peers);
    } else {
      NewHandlerLink(h, host.votes, net, sent, log, msg, peers);
      var tx := Tx(Absorb(Fresh(msg.tid), msg), Handler, [msg], 0, None, Awaiting(peers, false));
      AddTxLink(h, host, tx, net', sent, log);
      ListenerIrrelevant(h, AddTx(host, tx), Busy(|host.txs|, msg), net', sent, log);
      assert Store(host, msg, peers) == AddTx(host, tx).(listener := Busy(|host.txs|, msg));
    }
  }

  lemma ListenerIrrelevant(h: Name, host: Host, listener: Listener, net: set<Packet>, sent: set<Packet>, log: Log)
    requires HostLink(h, host, net, sent, log)
    ensures HostLink(h, host.(listener := listener), net, sent, log)
  {
    hide TxLink, VotesLink;
  }

  lemma RegisteredTx(host: Host, tid: Tid) returns (i: nat)
    requires Owned(host) && tid in host.registry
    ensures i == host.registry[tid] && i < |host.txs| && host.txs[i].data.tid == tid
  {
    i := host.registry[tid];
  }

  lemma StoreExisting(h: Name, host: Host, i: nat, net: set<Packet>, sent: set<Packet>, log: Log, msg: Message)
    requires HostLink(h, host, net, sent, log) && i < |host.txs| && host.txs[i].data.tid == msg.tid
    requires Packet(h, msg) in net && Packet(h, msg) in sent
    requires msg.tid in log && msg.peer != h
    requires msg.body.Req? ==> msg == RequestMessage(log, msg.tid)
    requires msg.body.Resp? ==> msg.peer != log[msg.tid].initiator
    ensures var tx := host.txs[i];
            TxLink(h, tx.(data := Absorb(tx.data, msg), arrived := tx.arrived + [msg]), host.votes,
                   net - {Packet(h, msg)}, sent, log)
    ensures host.txs[i].owner.Replicator? ==> msg.body.Resp?
  {
    NotYetArrived(h, host, net, sent, log, msg);
    assert TxLink(h, host.txs[i], host.votes, net, sent, log);
    StoreTxLink(h, host.txs[i], host.votes, net, sent, log, msg);
  }

  lemma StoreSeparate(host: Host, i: nat, msg: Message, peers: nat)
    requires Separate(host) && msg.tid in host.registry && host.registry[msg.tid] == i && i < |host.txs|
    requires forall j :: 0 <= j < |host.txs| ==> msg !in host.txs[j].arrived
    ensures Separate(Store(host, msg, peers))
  {
    var host' := Store(host, msg, peers);
    forall j, k, m | 0 <= j < |host'.txs| && 0 <= k < |host'.txs|
                  && m in host'.txs[j].arrived && m in host'.txs[k].arrived
      ensures j == k
    {
      if m != msg {
        assert m in host.txs[j].arrived && m in host.txs[k].arrived;
      }
    }
  }

  lemma StoreExistingLink(h: Name, host: Host, i: nat, net: set<Packet>, sent: set<Packet>, log: Log,
                          msg: Message, peers: nat)
    requires HostLink(h, host, net, sent, log)
    requires msg.tid in host.registry && host.registry[msg.tid] == i
    requires i < |host.txs| && host.txs[i].data.tid == msg.tid
    requires var tx := host.txs[i];
             TxLink(h, tx.(data := Absorb(tx.data, msg), arrived := tx.arrived + [msg]), host.votes, net, sent, log)
    requires forall j :: 0 <= j < |host.txs| ==> msg !in host.txs[j].arrived
    requires msg.body.Req? ==> msg.tid !in host.votes
    ensures HostLink(h, Store(host, msg, peers), net, sent, log)
  {
    hide TxLink, VotesLink;
    var host' := Store(host, msg, peers);
    HeardGrows(host, host');
    StoreSeparate(host, i, msg, peers);
    hide Separate, Heard;
    forall j | 0 <= j < |host'.txs| && Unvoted(host'.txs[j])
      ensures host'.txs[j].data.tid !in host'.votes
    {
      if !Unvoted(host.txs[j]) {
        assert j == i && msg.body.Req?;
      }
    }
    forall j, p | 0 <= j < |host'.txs| && Quiet(host'.txs[j]) && p in sent && p.msg.tid == host'.txs[j].data.tid
      ensures p.msg.peer != h
    {
      assert Quiet(host.txs[j]);
    }
  }

  lemma DeliverKeeps(s: State, p: Packet)
    requires Inv(s) && Enabled(s, Deliver(p))
    ensures Inv(Apply(s, Deliver(p)))
  {
    hide HostInv, HostLink, NetInv;
    var h, peers := p.to, |s.hosts| - 1;
    var host := s.hosts[h];
    var s' := Apply(s, Deliver(p));
    PacketFacts(s, p);
    HostOwned(h, host, peers);
    NotYetArrived(h, host, s.net, s.sent, s.started, p.msg);
    StoreHost(h, host, p.msg, peers);
    StoreLink(h, host, s.net, s.sent, s.started, p.msg, peers);
    SameVotesNet(s, s', h);
    OneHostMoves(s, s', h);
  }

  lemma HostOwned(h: Name, host: Host, peers: nat)
    requires HostInv(h, host, peers)
    ensures Owned(host) && ListenerInv(host)
  {
  }

  // ---------------------------------------------------------------- rendezvous

  lemma TakeTx(h: Name, tx: Tx, msg: Message, peers: nat)
    requires TxInv(h, tx, peers) && tx.phase.Awaiting? && tx.consumed < tx.phase.target
    requires tx.consumed < |tx.arrived| && tx.arrived[tx.consumed] == msg
    requires tx.vote.Some? ==> msg.body.Resp?
    ensures TxInv(h, Take(tx, msg), peers)
  {
    assert Base(h, Take(tx, msg)) == Base(h, tx);
  }

  /** Once a handler has voted, no second request reaches it. */
  lemma VotedOnce(h: Name, tx: Tx, votes: map<Tid, Response>, net: set<Packet>, sent: set<Packet>, log: Log, peers: nat)
    requires TxInv(h, tx, peers) && TxLink(h, tx, votes, net, sent, log)
    requires tx.vote.Some? && tx.consumed < |tx.arrived|
    ensures tx.arrived[tx.consumed].body.Resp?
  {
    var k :| 0 <= k < tx.consumed && tx.arrived[k].body.Req?;
    assert tx.arrived[k] == RequestMessage(log, tx.data.tid);
  }

  lemma TakeHost(h: Name, host: Host, tx: Tx, peers: nat)
    requires HostInv(h, host, peers) && host.listener.Busy? && host.listener.inc < |host.txs|
    requires tx == Take(host.txs[host.listener.inc], host.listener.msg) && TxInv(h, tx, peers)
    requires !host.txs[host.listener.inc].phase.Deleted?
    ensures HostInv(h, SetTx(host, host.listener.inc, tx).(listener := Idle), peers)
  {
    hide TxInv;
  }

  lemma TakeLink(h: Name, host: Host, net: set<Packet>, sent: set<Packet>, log: Log, peers: nat)
    requires HostLink(h, host, net, sent, log) && host.listener.Busy? && host.listener.inc < |host.txs|
    requires var tx := host.txs[host.listener.inc];
             && TxLink(h, tx, host.votes, net, sent, log)
             && tx.phase.Awaiting?
    ensures var i := host.listener.inc;
            HostLink(h, SetTx(host, i, Take(host.txs[i], host.listener.msg)).(listener := Idle), net, sent, log)
  {
    var i := host.listener.inc;
    var tx := Take(host.txs[i], host.listener.msg);
    assert TxLink(h, tx, host.votes, net, sent, log);
    hide HostLink, TxLink;
    SetTxLink(h, host, i, tx, net, sent, log);
    ListenerIrrelevant(h, SetTx(host, i, tx), Idle, net, sent, log);
  }

  lemma RendezvousKeeps(s: State, h: Name)
    requires Inv(s) && Enabled(s, Rendezvous(h))
    ensures Inv(Apply(s, Rendezvous(h)))
  {
    hide HostInv, HostLink, NetInv, TxInv, TxLink;
    var host, peers := s.hosts[h], |s.hosts| - 1;
    var i, msg := host.listener.inc, host.listener.msg;
    var s' := Apply(s, Rendezvous(h));
    HostOwned(h, host, peers);
    TxFacts(s, h, i);
    if host.txs[i].vote.Some? {
      VotedOnce(h, host.txs[i], host.votes, s.net, s.sent, s.started, peers);
    }
    TakeTx(h, host.txs[i], msg, peers);
    TakeHost(h, host, Take(host.txs[i], msg), peers);
    TakeLink(h, host, s.net, s.sent, s.started, peers);
    SameVotesNet(s, s', h);
    OneHostMoves(s, s', h);
  }

  // ---------------------------------------------------------------- vote

  lemma VoteTx(h: Name, tx: Tx, response: Response, peers: nat)
    requires TxInv(h, tx, peers) && tx.phase.Voting?
    ensures TxInv(h, tx.(vote := Some(response), phase := Awaiting(peers, false)), peers)
  {
    var tx' := tx.(vote := Some(response), phase := Awaiting(peers, false));
    assert Base(h, tx') == Base(h, tx);
    assert tx'.arrived[tx.consumed - 1].body.Req?;
  }

  lemma VoteTxLinks(h: Name, host: Host, i: nat, response: Response, peers: nat,
                    net: set<Packet>, sent: set<Packet>, log: Log, packets: set<Packet>)
    requires forall j :: 0 <= j < |host.txs| ==> TxLink(h, host.txs[j], host.votes, net, sent, log)
    requires i < |host.txs| && host.txs[i].phase.Voting? && host.txs[i].data.tid !in host.votes
    requires packets !! sent
    ensures var host' := RecordVote(host, i, response, peers);
            forall j :: 0 <= j < |host'.txs| ==>
              TxLink(h, host'.txs[j], host'.votes, net + packets, sent + packets, log)
  {
    var host' := RecordVote(host, i, response, peers);
    forall j | 0 <= j < |host'.txs|
      ensures TxLink(h, host'.txs[j], host'.votes, net + packets, sent + packets, log)
    {
      TxLinkFrame(h, host.txs[j], host.votes, net, sent, log, net + packets, sent + packets, log);
    }
  }

  lemma VoteVotesLink(h: Name, votes: map<Tid, Response>, tid: Tid, response: Response,
                      net: set<Packet>, sent: set<Packet>, log: Log, packets: set<Packet>)
    requires VotesLink(h, votes, net, sent, log) && packets !! sent
    requires tid in log && log[tid].initiator != h
    requires Packet(h, RequestMessage(log, tid)) in sent && Packet(h, RequestMessage(log, tid)) !in net
    requires response == NACK(ERR_TRANSACTION_CONFLICT) ==> Beaten(log, tid)
    ensures VotesLink(h, votes[tid := response], net + packets, sent + packets, log)
  {
    VotesLinkFrame(h, votes, net, sent, log, net + packets, sent + packets, log);
  }

  lemma VoteLink(h: Name, host: Host, i: nat, response: Response, peers: nat,
                 net: set<Packet>, sent: set<Packet>, log: Log, packets: set<Packet>)
    requires HostLink(h, host, net, sent, log) && i < |host.txs|
    requires TxInv(h, host.txs[i], peers) && host.txs[i].phase.Voting?
    requires 0 < host.txs[i].consumed <= |host.txs[i].arrived|
    requires packets !! sent
    requires response == NACK(ERR_TRANSACTION_CONFLICT) ==>
               host.txs[i].data.tid in log && Beaten(log, host.txs[i].data.tid)
    requires forall p :: p in packets ==> p.msg.tid == host.txs[i].data.tid
    ensures HostLink(h, RecordVote(host, i, response, peers), net + packets, sent + packets, log)
  {
    hide TxLink, VotesLink, TxInv;
    var host' := RecordVote(host, i, response, peers);
    var tid := host.txs[i].data.tid;
    VoterFacts(h, host, i, peers, net, sent, log);
    VoteTxLinks(h, host, i, response, peers, net, sent, log, packets);
    VoteVotesLink(h, host.votes, tid, response, net, sent, log, packets);
    SeparateSame(host, host');
    HeardGrows(host, host');
    assert host'.txs[i].arrived[host.txs[i].consumed - 1] in host'.txs[i].arrived;
    assert Heard(host', RequestMessage(log, tid));
    forall j, p | 0 <= j < |host'.txs| && Quiet(host'.txs[j]) && p in sent + packets
               && p.msg.tid == host'.txs[j].data.tid
      ensures p.msg.peer != h
    {
      assert Quiet(host.txs[j]);
      if p in packets {
        assert false;
      }
    }
  }

  /** The voter is not the initiator, has not voted before, and no other
      incarnation holds the request. */
  lemma VoterFacts(h: Name, host: Host, i: nat, peers: nat, net: set<Packet>, sent: set<Packet>, log: Log)
    requires HostLink(h, host, net, sent, log) && i < |host.txs|
    requires TxInv(h, host.txs[i], peers) && host.txs[i].phase.Voting?
    ensures var tid := host.txs[i].data.tid;
            && tid in log && tid !in host.votes && log[tid].initiator != h
            && host.txs[i].arrived[host.txs[i].consumed - 1] == RequestMessage(log, tid)
            && Packet(h, RequestMessage(log, tid)) in sent && Packet(h, RequestMessage(log, tid)) !in net
            && (forall j :: 0 <= j < |host.txs| && j != i && host.txs[j].data.tid == tid ==>
                  !Unvoted(host.txs[j]) && !Quiet(host.txs[j]))
  {
    var tx := host.txs[i];
    assert TxLink(h, tx, host.votes, net, sent, log);
    var m := tx.arrived[tx.consumed - 1];
    assert m in tx.arrived && m == RequestMessage(log, tx.data.tid);
    assert Unvoted(tx);
    forall j | 0 <= j < |host.txs| && j != i && host.txs[j].data.tid == tx.data.tid
      ensures !Unvoted(host.txs[j]) && !Quiet(host.txs[j])
    {
      assert TxLink(h, host.txs[j], host.votes, net, sent, log);
    }
  }

  lemma VoteNet(s: State, s': State, h: Name, tid: Tid, response: Response, packets: set<Packet>)
    requires NetInv(s) && h in s.hosts && h in s'.hosts
    requires s'.hosts == s.hosts[h := s'.hosts[h]]
    requires tid !in s.hosts[h].votes && s'.hosts[h].votes == s.hosts[h].votes[tid := response]
    requires tid in s.started && s.started[tid].initiator != h
    requires s'.net == s.net + packets && s'.sent == s.sent + packets && s'.started == s.started
    requires forall p :: p in packets ==>
               p.to in s.hosts && p.to != h && p.msg == Message(tid, h, Resp(response))
    ensures NetInv(s')
    ensures packets !! s.sent
  {
    forall p | p in s'.sent
      ensures PacketInv(p, s'.hosts, s'.started)
    {
      if p in s.sent {
        assert PacketInv(p, s.hosts, s.started);
      }
    }
  }

  lemma ConflictVote(host: Host, msg: Message, consulted: Response)
    requires consulted != NACK(ERR_TRANSACTION_CONFLICT)
    requires VoteOn(host, msg, consulted) == NACK(ERR_TRANSACTION_CONFLICT)
    ensures InConflict(ViewOf(host), msg)
  {
  }

  /** What a vote step changes. */
  lemma VoteShape(s: State, h: Name, i: nat, consulted: Response, reached: set<Name>)
    requires Enabled(s, Vote(h, i, consulted, reached))
    ensures HasTx(s, h, i) && s.hosts[h].txs[i].phase.Voting?
    ensures 0 < s.hosts[h].txs[i].consumed <= |s.hosts[h].txs[i].arrived|
    ensures consulted != NACK(ERR_TRANSACTION_CONFLICT)
    ensures var host, tx, s' := s.hosts[h], s.hosts[h].txs[i], Apply(s, Vote(h, i, consulted, reached));
            var response := VoteOn(host, tx.arrived[tx.consumed - 1], consulted);
            var packets := Packets(Message(tx.data.tid, h, Resp(response)), reached);
            && |s.hosts| > 0
            && s'.hosts == s.hosts[h := RecordVote(host, i, response, |s.hosts| - 1)]
            && s'.hosts[h].votes == host.votes[tx.data.tid := response]
            && s'.net == s.net + packets && s'.sent == s.sent + packets && s'.started == s.started
            && forall p :: p in packets ==>
                 p.to in s.hosts && p.to != h && p.msg == Message(tx.data.tid, h, Resp(response))
  {
    hide VoteOn;
  }

  lemma VoteKeeps(s: State, h: Name, i: nat, consulted: Response, reached: set<Name>)
    requires Inv(s) && Enabled(s, Vote(h, i, consulted, reached))
    ensures Inv(Apply(s, Vote(h, i, consulted, reached)))
  {
    hide HostInv, HostLink, NetInv, TxLink, TxInv, VoteOn, Enabled, Apply, Packets, RecordVote, Beaten;
    VoteShape(s, h, i, consulted, reached);
    var host, peers := s.hosts[h], |s.hosts| - 1;
    var tx := host.txs[i];
    var tid, msg := tx.data.tid, tx.arrived[tx.consumed - 1];
    var response := VoteOn(host, msg, consulted);
    var packets := Packets(Message(tid, h, Resp(response)), reached);
    var s' := Apply(s, Vote(h, i, consulted, reached));
    TxFacts(s, h, i);
    VoterFacts(h, host, i, peers, s.net, s.sent, s.started);
    if response == NACK(ERR_TRANSACTION_CONFLICT) {
      ConflictVote(host, msg, consulted);
      RefusedIsBeaten(h, host, s.net, s.sent, s.started, msg);
    }
    VoteNet(s, s', h, tid, response, packets);
    VoteLink(h, host, i, response, peers, s.net, s.sent, s.started, packets);
    VoteTx(h, tx, response, peers);
    VoteHost(h, host, i, response, peers);
    OneHostMoves(s, s', h);
  }

  lemma VoteHost(h: Name, host: Host, i: nat, response: Response, peers: nat)
    requires HostInv(h, host, peers) && i < |host.txs| && host.txs[i].phase.Voting?
    requires TxInv(h, host.txs[i].(vote := Some(response), phase := Awaiting(peers, false)), peers)
    ensures HostInv(h, RecordVote(host, i, response, peers), peers)
  {
    hide TxInv;
  }

  // ---------------------------------------------------------------- all steps

  lemma StepKeepsInv(s: State, step: Step)
    requires Inv(s) && Enabled(s, step)
    ensures Inv(Apply(s, step))
  {
    hide Inv, Enabled, Apply;
    match step
    case Start(h, tid, request) => StartKeeps(s, h, tid, request);
    case Check(h, i) => CheckKeeps(s, h, i);
    case Broadcast(h, i, result, reached) => BroadcastKeeps(s, h, i, result, reached);
    case Drop(p) => DropKeeps(s, p);
    case Deliver(p) => DeliverKeeps(s, p);
    case Rendezvous(h) => RendezvousKeeps(s, h);
    case Vote(h, i, consulted, reached) => VoteKeeps(s, h, i, consulted, reached);
    case Timeout(h, i) => TimeoutKeeps(s, h, i);
    case Decide(h, i) => DecideKeeps(s, h, i);
    case MirrorReturns(h, i) => MirrorKeeps(s, h, i);
    case Delete(h, i) => DeleteKeeps(s, h, i);
  }

  /** Every state of every run satisfies the invariant. */
  lemma {:induction false} RunInv(r: Run, k: nat)
    requires IsRun(r) && k < |r.states|
    ensures Inv(r.states[k])
  {
    hide Inv, Enabled, Apply, Initial;
    if k == 0 {
      InitialInv(r.states[0]);
    } else {
      RunInv(r, k - 1);
      assert Taken(r.states[k - 1], r.steps[k - 1], r.states[k]);
      StepKeepsInv(r.states[k - 1], r.steps[k - 1]);
    }
  }
}
