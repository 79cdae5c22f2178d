/** The inductive invariant of the commit protocol.

`HostInv` speaks of one host alone, `HostLink` ties one host to the network and
the histories, `NetInv` says what the packets ever sent contain.
*/
module ReplicationInvariant {
  import opened Names
  import opened Messages
  import opened Registry
  import opened Conflicts
  import opened Replication

  predicate IsNack(m: Message) {
    m.body.Resp? && m.body.response.NACK?
  }

  predicate EndedWith(tx: Tx, o: Outcome) {
    tx.phase == Returned(o) || tx.phase == Deleted(o)
  }

  /** The owner took the commit branch: Replicate returned nil, or the handler
      called Mirror. */
  predicate Committed(tx: Tx) {
    tx.phase.Mirroring? || EndedWith(tx, Success)
  }

  /** A Replicate call that has sent nothing. */
  predicate Quiet(tx: Tx) {
    tx.owner.Replicator? && (tx.phase.Checking? || tx.phase.Sending? || EndedWith(tx, Conflict))
  }

  /** A handler that holds the request and has not voted. */
  predicate Unvoted(tx: Tx) {
    tx.owner.Handler? && tx.data.request.Some? && tx.vote.None?
  }

  predicate Beaten(log: Log, t: Tid)
    requires t in log
  {
    exists u :: u in log && Beats(log[u], log[t])
  }

  /** What a transaction object held before the listener stored anything. */
  function Base(h: Name, tx: Tx): TxData {
    if tx.owner.Handler? then Fresh(tx.data.tid) else TxData(tx.data.tid, h, tx.data.request, [])
  }

  // ---------------------------------------------------------------- one host

  ghost predicate TxInv(h: Name, tx: Tx, peers: nat) {
    && (forall k :: 0 <= k < |tx.arrived| ==> tx.arrived[k].tid == tx.data.tid && tx.arrived[k].peer != h)
    && (forall j, k :: 0 <= j < k < |tx.arrived| ==> tx.arrived[j] != tx.arrived[k])
    && tx.data == AbsorbAll(Base(h, tx), tx.arrived)
    && tx.consumed <= |tx.arrived|
    && (Committed(tx) ==>
          && tx.consumed == peers
          && (forall k :: 0 <= k < tx.consumed ==> !IsNack(tx.arrived[k]))
          && (tx.vote.Some? ==> tx.vote.value.ACK?))
    && (EndedWith(tx, NotPermitted) ==>
          || (tx.vote.Some? && tx.vote.value.NACK?)
          || (exists k :: 0 <= k < |tx.arrived| && IsNack(tx.arrived[k])))
    && PhaseInv(tx, peers)
    && (tx.owner.Handler? && tx.vote.None? && !tx.phase.Voting? ==>
          forall k :: 0 <= k < tx.consumed ==> tx.arrived[k].body.Resp?)
    && (tx.vote.Some? ==> exists k :: 0 <= k < tx.consumed && tx.arrived[k].body.Req?)
  }

  ghost predicate PhaseInv(tx: Tx, peers: nat) {
    && (tx.phase.Awaiting? ==>
          && tx.consumed <= tx.phase.target
          && (tx.owner.Handler? || !tx.phase.partial ==> tx.phase.target == peers)
          && (tx.phase.partial ==> tx.phase.target < peers))
    && (EndedWith(tx, TimedOut) || EndedWith(tx, SendError) ==> tx.consumed < peers)
    && (EndedWith(tx, NotPermitted) ==> tx.consumed == peers)
    && (tx.phase.Voting? ==>
          && tx.owner.Handler? && tx.vote.None?
          && 0 < tx.consumed <= |tx.arrived| && tx.consumed <= peers
          && tx.arrived[tx.consumed - 1].body.Req?)
    && (tx.phase.Checking? || tx.phase.Sending? ==> tx.consumed == 0)
    && (tx.owner.Replicator? ==> tx.vote.None? && !tx.phase.Mirroring?)
    && (tx.owner.Handler? ==> !tx.phase.Checking? && !tx.phase.Sending? && !EndedWith(tx, Conflict))
  }

  /** Registry entries and owners that have not deleted theirs, one to one. */
  ghost predicate Owned(host: Host) {
    && (forall t :: t in host.registry ==>
          && host.registry[t] < |host.txs|
          && host.txs[host.registry[t]].data.tid == t
          && !host.txs[host.registry[t]].phase.Deleted?)
    && (forall i :: 0 <= i < |host.txs| && !host.txs[i].phase.Deleted? ==>
          host.txs[i].data.tid in host.registry && host.registry[host.txs[i].data.tid] == i)
  }

  /** Everything stored has been consumed, except the message the listener offers. */
  ghost predicate ListenerInv(host: Host) {
    && (host.listener.Busy? ==>
          && host.listener.inc < |host.txs|
          && var tx := host.txs[host.listener.inc];
          |tx.arrived| == tx.consumed + 1 && tx.arrived[tx.consumed] == host.listener.msg)
    && (forall i :: 0 <= i < |host.txs| && !(host.listener.Busy? && host.listener.inc == i) ==>
          |host.txs[i].arrived| == host.txs[i].consumed)
  }

  ghost predicate HostInv(h: Name, host: Host, peers: nat) {
    && Owned(host)
    && ListenerInv(host)
    && forall i :: 0 <= i < |host.txs| ==> TxInv(h, host.txs[i], peers)
  }

  // ---------------------------------------------------------------- host and network

  ghost predicate TxLink(h: Name, tx: Tx, votes: map<Tid, Response>, net: set<Packet>, sent: set<Packet>, log: Log) {
    && tx.data.tid in log
    && (forall k :: 0 <= k < |tx.arrived| ==>
          Packet(h, tx.arrived[k]) in sent && Packet(h, tx.arrived[k]) !in net)
    && (forall k :: 0 <= k < |tx.arrived| && tx.arrived[k].body.Req? ==>
          tx.arrived[k] == RequestMessage(log, tx.data.tid))
    && (tx.owner.Replicator? ==> log[tx.data.tid].initiator == h && tx.data.request.Some?)
    && (tx.owner.Handler? ==> (tx.data.request.Some? <==> RequestMessage(log, tx.data.tid) in tx.arrived))
    && (tx.data.request.Some? ==> Issued(tx.data.initiatorName, tx.data.request.value) == log[tx.data.tid])
    && (tx.vote.Some? ==> tx.data.tid in votes && votes[tx.data.tid] == tx.vote.value)
    && (EndedWith(tx, Conflict) ==> Beaten(log, tx.data.tid))
  }

  ghost predicate VotesLink(h: Name, votes: map<Tid, Response>, net: set<Packet>, sent: set<Packet>, log: Log) {
    forall t :: t in votes ==>
      && t in log && log[t].initiator != h
      && Packet(h, RequestMessage(log, t)) in sent
      && Packet(h, RequestMessage(log, t)) !in net
      && (votes[t] == NACK(ERR_TRANSACTION_CONFLICT) ==> Beaten(log, t))
  }

  ghost predicate HostLink(h: Name, host: Host, net: set<Packet>, sent: set<Packet>, log: Log) {
    && (forall i :: 0 <= i < |host.txs| ==> TxLink(h, host.txs[i], host.votes, net, sent, log))
    && VotesLink(h, host.votes, net, sent, log)
    && (forall t :: t in host.votes && t in log ==> Heard(host, RequestMessage(log, t)))
    && Separate(host)
    && (forall i :: 0 <= i < |host.txs| && Unvoted(host.txs[i]) ==> host.txs[i].data.tid !in host.votes)
    && (forall i, p :: 0 <= i < |host.txs| && Quiet(host.txs[i]) && p in sent && p.msg.tid == host.txs[i].data.tid ==>
          p.msg.peer != h)
  }

  /** The message has reached some incarnation. */
  ghost predicate Heard(host: Host, msg: Message) {
    exists i :: 0 <= i < |host.txs| && msg in host.txs[i].arrived
  }

  /** No message reaches two incarnations, and one Replicate call owns a tid. */
  ghost predicate Separate(host: Host) {
    && (forall i, j, m ::
          (0 <= i < |host.txs| && 0 <= j < |host.txs| && m in host.txs[i].arrived && m in host.txs[j].arrived) ==>
          i == j)
    && (forall i, j :: 0 <= i < j < |host.txs| && host.txs[i].data.tid == host.txs[j].data.tid ==>
          !(host.txs[i].owner.Replicator? && host.txs[j].owner.Replicator?))
  }

  // ---------------------------------------------------------------- network

  /** A packet from the initiator is its request; any other is its sender's vote. */
  ghost predicate PacketInv(p: Packet, hosts: map<Name, Host>, log: Log) {
    && p.to in hosts && p.msg.peer in hosts && p.to != p.msg.peer
    && p.msg.tid in log
    && (if p.msg.peer == log[p.msg.tid].initiator then
          p.msg.body == Req(log[p.msg.tid].request)
        else
          p.msg.tid in hosts[p.msg.peer].votes && p.msg.body == Resp(hosts[p.msg.peer].votes[p.msg.tid]))
  }

  ghost predicate NetInv(s: State) {
    && s.net <= s.sent
    && (forall p :: p in s.sent ==> PacketInv(p, s.hosts, s.started))
    && (forall t :: t in s.started ==> s.started[t].initiator in s.hosts)
  }

  ghost predicate Inv(s: State) {
    && |s.hosts| >= 2
    && (forall h :: h in s.hosts ==> HostInv(h, s.hosts[h], |s.hosts| - 1))
    && (forall h :: h in s.hosts ==> HostLink(h, s.hosts[h], s.net, s.sent, s.started))
    && NetInv(s)
  }

  lemma InitialInv(s: State)
    requires Initial(s)
    ensures Inv(s)
  {
  }

  // ---------------------------------------------------------------- frames

  /** What one host may rely on when another host moves. */
  ghost predicate Extends(h: Name, net: set<Packet>, sent: set<Packet>, log: Log,
                          net': set<Packet>, sent': set<Packet>, log': Log)
  {
    && sent <= sent'
    && (forall t :: t in log ==> t in log' && log'[t] == log[t])
    && (forall p :: p in net' && p !in net ==> p !in sent)
    && (forall p :: p in sent' && p !in sent ==> p.msg.peer != h)
  }

  lemma BeatenStays(log: Log, log': Log, t: Tid)
    requires t in log && Beaten(log, t)
    requires forall u :: u in log ==> u in log' && log'[u] == log[u]
    ensures Beaten(log', t)
  {
    var u :| u in log && Beats(log[u], log[t]);
    assert u in log' && Beats(log'[u], log'[t]);
  }

  lemma TxLinkFrame(h: Name, tx: Tx, votes: map<Tid, Response>, net: set<Packet>, sent: set<Packet>, log: Log,
                    net': set<Packet>, sent': set<Packet>, log': Log)
    requires TxLink(h, tx, votes, net, sent, log)
    requires sent <= sent'
    requires forall t :: t in log ==> t in log' && log'[t] == log[t]
    requires forall p :: p in net' && p !in net ==> p !in sent
    ensures TxLink(h, tx, votes, net', sent', log')
  {
    if EndedWith(tx, Conflict) {
      BeatenStays(log, log', tx.data.tid);
    }
  }

  lemma VotesLinkFrame(h: Name, votes: map<Tid, Response>, net: set<Packet>, sent: set<Packet>, log: Log,
                       net': set<Packet>, sent': set<Packet>, log': Log)
    requires VotesLink(h, votes, net, sent, log)
    requires sent <= sent'
    requires forall t :: t in log ==> t in log' && log'[t] == log[t]
    requires forall p :: p in net' && p !in net ==> p !in sent
    ensures VotesLink(h, votes, net', sent', log')
  {
    forall t | t in votes && votes[t] == NACK(ERR_TRANSACTION_CONFLICT)
      ensures Beaten(log', t)
    {
      BeatenStays(log, log', t);
    }
  }

  lemma HostLinkFrame(h: Name, host: Host, net: set<Packet>, sent: set<Packet>, log: Log,
                      net': set<Packet>, sent': set<Packet>, log': Log)
    requires HostLink(h, host, net, sent, log)
    requires Extends(h, net, sent, log, net', sent', log')
    ensures HostLink(h, host, net', sent', log')
  {
    forall i | 0 <= i < |host.txs|
      ensures TxLink(h, host.txs[i], host.votes, net', sent', log')
    {
      TxLinkFrame(h, host.txs[i], host.votes, net, sent, log, net', sent', log');
    }
    VotesLinkFrame(h, host.votes, net, sent, log, net', sent', log');
    forall i, p | 0 <= i < |host.txs| && Quiet(host.txs[i]) && p in sent' && p.msg.tid == host.txs[i].data.tid
      ensures p.msg.peer != h
    {
      if p in sent {
      }
    }
  }

  /** A step that moves one host keeps the invariant if that host and the network do. */
  lemma OneHostMoves(s: State, s': State, h: Name)
    requires Inv(s)
    requires h in s.hosts && s'.hosts.Keys == s.hosts.Keys
    requires forall k :: k in s.hosts && k != h ==> s'.hosts[k] == s.hosts[k]
    requires HostInv(h, s'.hosts[h], |s.hosts| - 1)
    requires HostLink(h, s'.hosts[h], s'.net, s'.sent, s'.started)
    requires forall k :: k in s.hosts && k != h ==>
               Extends(k, s.net, s.sent, s.started, s'.net, s'.sent, s'.started)
    requires NetInv(s')
    ensures Inv(s')
  {
    hide HostInv, HostLink, NetInv, Extends;
    assert |s'.hosts| == |s'.hosts.Keys| == |s.hosts.Keys|;
    forall k | k in s'.hosts
      ensures HostLink(k, s'.hosts[k], s'.net, s'.sent, s'.started)
    {
      if k != h {
        HostLinkFrame(k, s.hosts[k], s.net, s.sent, s.started, s'.net, s'.sent, s'.started);
      }
    }
  }

  /** Replacing one object, same contents and same deliveries. */
  lemma SetTxInv(h: Name, host: Host, i: nat, tx: Tx, peers: nat)
    requires HostInv(h, host, peers) && i < |host.txs|
    requires TxInv(h, tx, peers)
    requires tx.data.tid == host.txs[i].data.tid && tx.arrived == host.txs[i].arrived
    requires tx.consumed == host.txs[i].consumed
    requires tx.phase.Deleted? == host.txs[i].phase.Deleted?
    ensures HostInv(h, SetTx(host, i, tx), peers)
  {
    hide TxInv;
  }

  lemma SetTxLink(h: Name, host: Host, i: nat, tx: Tx, net: set<Packet>, sent: set<Packet>, log: Log)
    requires HostLink(h, host, net, sent, log) && i < |host.txs|
    requires TxLink(h, tx, host.votes, net, sent, log)
    requires tx.data == host.txs[i].data && tx.arrived == host.txs[i].arrived && tx.owner == host.txs[i].owner
    requires Unvoted(tx) ==> Unvoted(host.txs[i])
    requires Quiet(tx) ==> Quiet(host.txs[i])
    ensures HostLink(h, SetTx(host, i, tx), net, sent, log)
  {
    hide TxLink, VotesLink;
    var host' := SetTx(host, i, tx);
    SeparateSame(host, host');
    HeardGrows(host, host');
    hide Separate, Heard;
    forall j | 0 <= j < |host'.txs| && Unvoted(host'.txs[j])
      ensures host'.txs[j].data.tid !in host'.votes
    {
      assert Unvoted(host.txs[j]);
    }
    forall j, p | 0 <= j < |host'.txs| && Quiet(host'.txs[j]) && p in sent && p.msg.tid == host'.txs[j].data.tid
      ensures p.msg.peer != h
    {
      assert Quiet(host.txs[j]);
    }
  }

  lemma HeardGrows(host: Host, host': Host)
    requires |host.txs| <= |host'.txs|
    requires forall i, m :: 0 <= i < |host.txs| && m in host.txs[i].arrived ==> m in host'.txs[i].arrived
    ensures forall m :: Heard(host, m) ==> Heard(host', m)
  {
    forall m | Heard(host, m)
      ensures Heard(host', m)
    {
      var i :| 0 <= i < |host.txs| && m in host.txs[i].arrived;
      assert m in host'.txs[i].arrived;
    }
  }

  lemma SeparateSame(host: Host, host': Host)
    requires Separate(host)
    requires |host'.txs| == |host.txs|
    requires forall i :: 0 <= i < |host.txs| ==>
               && host'.txs[i].arrived == host.txs[i].arrived
               && host'.txs[i].data.tid == host.txs[i].data.tid
               && host'.txs[i].owner == host.txs[i].owner
    ensures Separate(host')
  {
    forall i, j, m | 0 <= i < |host'.txs| && 0 <= j < |host'.txs|
                  && m in host'.txs[i].arrived && m in host'.txs[j].arrived
      ensures i == j
    {
      assert m in host.txs[i].arrived && m in host.txs[j].arrived;
    }
  }
}
