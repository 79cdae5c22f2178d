/** The commit protocol as a step system (p2p/host.go, p2p/transaction.go).

One `Tx` is one transaction object together with the goroutine that owns it: a
`Replicate` call or a handler spawned by `listen`. Objects are never reused, so
an index into `txs` is an incarnation; a registry entry that was deleted and
then recreated by a late message is a new index.

The network loses and reorders packets at will and delivers each at most once.
A crashed host is one that takes no further step.
*/
module Replication {
  import opened Names
  import opened Messages
  import opened Registry
  import opened Conflicts
  import opened Responses

  datatype Owner = Replicator | Handler

  /** How a Replicate call or a handler ended. */
  datatype Outcome = Success | NotPermitted | Conflict | TimedOut | SendError

  datatype Phase =
    | Checking
    | Sending
    | Awaiting(target: nat, partial: bool)
    | Voting
    | Mirroring
    | Returned(outcome: Outcome)
    | Deleted(outcome: Outcome)

  datatype Tx = Tx(
    data: TxData,
    owner: Owner,
    arrived: seq<Message>, // stored by the listener, oldest first
    consumed: nat,         // how many of them the owner took from NotifyChan
    vote: Option<Response>,
    phase: Phase)

  datatype Listener = Idle | Busy(inc: nat, msg: Message)

  datatype Host = Host(
    registry: map<Tid, nat>,
    txs: seq<Tx>,
    listener: Listener,
    clock: Uint64,
    votes: map<Tid, Response>)

  datatype Packet = Packet(to: Name, msg: Message)

  type Log = map<Tid, Issued>

  /** `sent` and `started` are histories: every packet ever put on the network and
      every request ever issued. */
  datatype State = State(
    hosts: map<Name, Host>,
    net: set<Packet>,
    sent: set<Packet>,
    started: Log)

  /** What the pool reports to Replicate: nothing sent at all, or the peers whose
      send failed. A send that failed may still have reached its peer. */
  datatype BroadcastResult = PeerIsDown | Tried(failed: set<Name>)

  datatype Step =
    | Start(host: Name, tid: Tid, request: Request)
    | Check(host: Name, inc: nat)
    | Broadcast(host: Name, inc: nat, result: BroadcastResult, reached: set<Name>)
    | Drop(packet: Packet)
    | Deliver(packet: Packet)
    | Rendezvous(host: Name)
    | Vote(host: Name, inc: nat, consulted: Response, reached: set<Name>)
    | Timeout(host: Name, inc: nat)
    | Decide(host: Name, inc: nat)
    | MirrorReturns(host: Name, inc: nat)
    | Delete(host: Name, inc: nat)

  // ---------------------------------------------------------------- hosts

  function NewHost(clock: Uint64): Host {
    Host(map[], [], Idle, clock, map[])
  }

  /** The registry as the conflict loop sees it. */
  function ViewOf(host: Host): View {
    map t | t in host.registry && host.registry[t] < |host.txs| :: host.txs[host.registry[t]].data
  }

  function RequestMessage(log: Log, tid: Tid): Message
    requires tid in log
  {
    Message(tid, log[tid].initiator, Req(log[tid].request))
  }

  function Packets(msg: Message, reached: set<Name>): set<Packet> {
    set to | to in reached :: Packet(to, msg)
  }

  /** `Put` by a Replicate call for its own new request. */
  function RegisterOwn(host: Host, msg: Message): Host {
    host.(
      registry := host.registry[msg.tid := |host.txs|],
      txs := host.txs + [Tx(Absorb(Fresh(msg.tid), msg), Replicator, [], 0, None, Checking)])
  }

  /** `Put` by the listener: find the entry or create it with a new handler. */
  function Store(host: Host, msg: Message, peers: nat): Host
    requires msg.tid in host.registry ==> host.registry[msg.tid] < |host.txs|
  {
    if msg.tid in host.registry then
      var i := host.registry[msg.tid];
      var tx := host.txs[i];
      host.(
        txs := host.txs[i := tx.(data := Absorb(tx.data, msg), arrived := tx.arrived + [msg])],
        listener := Busy(i, msg))
    else
      host.(
        registry := host.registry[msg.tid := |host.txs|],
        txs := host.txs + [Tx(Absorb(Fresh(msg.tid), msg), Handler, [msg], 0, None, Awaiting(peers, false))],
        listener := Busy(|host.txs|, msg))
  }

  function SetTx(host: Host, i: nat, tx: Tx): Host
    requires i < |host.txs|
  {
    host.(txs := host.txs[i := tx])
  }

  /** The owner takes the message the listener offers; a handler that takes the
      request goes on to vote. */
  function Take(tx: Tx, msg: Message): Tx {
    tx.(
      consumed := tx.consumed + 1,
      phase := if tx.owner.Handler? && msg.body.Req? then Voting else tx.phase)
  }

  /** A handler's vote on the request `msg`: what Consult said, unless a registered
      transaction wins the conflict. */
  function VoteOn(host: Host, msg: Message, consulted: Response): Response {
    if consulted.ACK? && InConflict(ViewOf(host), msg) then NACK(ERR_TRANSACTION_CONFLICT) else consulted
  }

  function RecordVote(host: Host, i: nat, response: Response, peers: nat): Host
    requires i < |host.txs|
  {
    var tx := host.txs[i];
    SetTx(host, i, tx.(vote := Some(response), phase := Awaiting(peers, false)))
      .(votes := host.votes[tx.data.tid := response])
  }

  /** The end of the waiting loop. A handler that never saw the request keeps the
      zero value of its vote, which is ACK. */
  function Decided(host: Host, i: nat): Host
    requires i < |host.txs| && host.txs[i].phase.Awaiting?
  {
    var tx := host.txs[i];
    if tx.owner.Replicator? then
      if tx.phase.partial then
        SetTx(host, i, tx.(phase := Returned(SendError)))
      else
        var o := if HasNack(tx.data.responses) then NotPermitted else Success;
        SetTx(host, i, tx.(phase := Returned(o))).(clock := ClockAfter(tx.data.responses, host.clock))
    else
      var permitted := (tx.vote.None? || tx.vote.value.ACK?) && !HasNack(tx.data.responses);
      SetTx(host, i, tx.(phase := if permitted then Mirroring else Returned(NotPermitted)))
  }

  // ---------------------------------------------------------------- steps

  predicate HasTx(s: State, h: Name, i: nat) {
    h in s.hosts && i < |s.hosts[h].txs|
  }

  predicate Peers(s: State, h: Name, some: set<Name>) {
    some <= s.hosts.Keys - {h}
  }

  predicate Enabled(s: State, step: Step) {
    match step
    case Start(h, tid, request) => h in s.hosts && tid !in s.started
    case Check(h, i) => HasTx(s, h, i) && s.hosts[h].txs[i].phase.Checking?
    case Broadcast(h, i, result, reached) =>
      && HasTx(s, h, i) && s.hosts[h].txs[i].phase.Sending? && s.hosts[h].txs[i].data.request.Some?
      && Peers(s, h, reached)
      && (result.PeerIsDown? ==> reached == {})
      && (result.Tried? ==> Peers(s, h, result.failed))
    case Drop(p) => p in s.net
    case Deliver(p) =>
      && p in s.net && p.to in s.hosts && s.hosts[p.to].listener.Idle?
      && var host := s.hosts[p.to];
      p.msg.tid in host.registry ==> host.registry[p.msg.tid] < |host.txs|
    case Rendezvous(h) =>
      && h in s.hosts && s.hosts[h].listener.Busy?
      && HasTx(s, h, s.hosts[h].listener.inc)
      && var tx := s.hosts[h].txs[s.hosts[h].listener.inc];
      tx.phase.Awaiting? && tx.consumed < tx.phase.target
    case Vote(h, i, consulted, reached) =>
      && HasTx(s, h, i) && s.hosts[h].txs[i].phase.Voting?
      && 0 < s.hosts[h].txs[i].consumed <= |s.hosts[h].txs[i].arrived|
      && consulted != NACK(ERR_TRANSACTION_CONFLICT)
      && Peers(s, h, reached)
    case Timeout(h, i) =>
      && HasTx(s, h, i)
      && s.hosts[h].txs[i].phase.Awaiting? && s.hosts[h].txs[i].consumed < s.hosts[h].txs[i].phase.target
    case Decide(h, i) =>
      && HasTx(s, h, i)
      && s.hosts[h].txs[i].phase.Awaiting? && s.hosts[h].txs[i].consumed == s.hosts[h].txs[i].phase.target
    case MirrorReturns(h, i) =>
      && HasTx(s, h, i) && s.hosts[h].txs[i].phase.Mirroring? && s.hosts[h].txs[i].data.request.Some?
    case Delete(h, i) => HasTx(s, h, i) && s.hosts[h].txs[i].phase.Returned?
  }

  function Apply(s: State, step: Step): State
    requires Enabled(s, step)
  {
    var peers := |s.hosts| - 1;
    match step
    case Start(h, tid, request) =>
      s.(
        hosts := s.hosts[h := RegisterOwn(s.hosts[h], Message(tid, h, Req(request)))],
        started := s.started[tid := Issued(h, request)])
    case Check(h, i) =>
      var host := s.hosts[h];
      s.(hosts := s.hosts[h := Checked(h, host, i)])
    case Broadcast(h, i, result, reached) =>
      var host := s.hosts[h];
      var tx := host.txs[i];
      var packets := Packets(Message(tx.data.tid, h, Req(tx.data.request.value)), reached);
      s.(
        hosts := s.hosts[h := SetTx(host, i, tx.(phase := AfterBroadcast(result, peers)))],
        net := s.net + packets,
        sent := s.sent + packets)
    case Drop(p) => s.(net := s.net - {p})
    case Deliver(p) =>
      s.(
        hosts := s.hosts[p.to := Store(s.hosts[p.to], p.msg, peers)],
        net := s.net - {p})
    case Rendezvous(h) =>
      var host := s.hosts[h];
      var i := host.listener.inc;
      s.(hosts := s.hosts[h := SetTx(host, i, Take(host.txs[i], host.listener.msg)).(listener := Idle)])
    case Vote(h, i, consulted, reached) =>
      var host := s.hosts[h];
      var tx := host.txs[i];
      var response := VoteOn(host, tx.arrived[tx.consumed - 1], consulted);
      var packets := Packets(Message(tx.data.tid, h, Resp(response)), reached);
      s.(
        hosts := s.hosts[h := RecordVote(host, i, response, peers)],
        net := s.net + packets,
        sent := s.sent + packets)
    case Timeout(h, i) => SetPhase(s, h, i, Returned(TimedOut))
    case Decide(h, i) => s.(hosts := s.hosts[h := Decided(s.hosts[h], i)])
    case MirrorReturns(h, i) => SetPhase(s, h, i, Returned(Success))
    case Delete(h, i) =>
      var host := s.hosts[h];
      var tx := host.txs[i];
      s.(hosts := s.hosts[h :=
        SetTx(host, i, tx.(phase := Deleted(tx.phase.outcome))).(registry := host.registry - {tx.data.tid})])
  }

  /** The conflict check `Replicate` makes before it broadcasts. */
  function Checked(h: Name, host: Host, i: nat): Host
    requires i < |host.txs|
  {
    var tx := host.txs[i];
    if tx.data.request.Some? && InConflict(ViewOf(host), Message(tx.data.tid, h, Req(tx.data.request.value))) then
      SetTx(host, i, tx.(phase := Returned(Conflict))).(clock := Bump(host.clock))
    else
      SetTx(host, i, tx.(phase := Sending))
  }

  /** How many messages `Replicate` waits for: one from every peer whose send
      succeeded, and none when every send failed. */
  function AfterBroadcast(result: BroadcastResult, peers: nat): Phase {
    match result
    case PeerIsDown => Returned(SendError)
    case Tried(failed) =>
      if failed == {} then Awaiting(peers, false)
      else if |failed| >= peers then Returned(SendError)
      else Awaiting(peers - |failed|, true)
  }

  function SetPhase(s: State, h: Name, i: nat, phase: Phase): State
    requires HasTx(s, h, i)
  {
    s.(hosts := s.hosts[h := SetTx(s.hosts[h], i, s.hosts[h].txs[i].(phase := phase))])
  }

  // ---------------------------------------------------------------- runs

  /** Two or more hosts, nothing issued yet; the clocks are arbitrary. */
  predicate Initial(s: State) {
    && |s.hosts| >= 2
    && (forall h :: h in s.hosts ==> s.hosts[h] == NewHost(s.hosts[h].clock))
    && s.net == {} && s.sent == {} && s.started == map[]
  }

  datatype Run = Run(states: seq<State>, steps: seq<Step>)

  ghost predicate IsRun(r: Run) {
    && |r.states| == |r.steps| + 1
    && Initial(r.states[0])
    && forall k :: 0 <= k < |r.steps| ==> Taken(r.states[k], r.steps[k], r.states[k + 1])
  }

  predicate Taken(s: State, step: Step, s': State) {
    Enabled(s, step) && s' == Apply(s, step)
  }
}
