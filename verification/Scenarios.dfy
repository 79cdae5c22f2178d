/** Runs that show what the protocol does not promise, for any two hosts and any
requests. */
module Scenarios {
  import opened Names
  import opened Messages
  import opened Registry
  import opened Conflicts
  import opened Replication
  import opened ReplicationInvariant

  function Two(a: Name, b: Name, ha: Host, hb: Host, net: set<Packet>, sent: set<Packet>, log: Log): State {
    State(map[a := ha, b := hb], net, sent, log)
  }

  lemma Flip(a: Name, b: Name, ha: Host, hb: Host, net: set<Packet>, sent: set<Packet>, log: Log)
    requires a != b
    ensures Two(a, b, ha, hb, net, sent, log) == Two(b, a, hb, ha, net, sent, log)
  {
  }

  lemma TwoHosts(a: Name, b: Name, ha: Host, hb: Host)
    requires a != b
    ensures var m := map[a := ha, b := hb];
            m.Keys == {a, b} && |m| == 2 && m[a] == ha && m[b] == hb
    ensures forall x :: map[a := ha, b := hb][a := x] == map[a := x, b := hb]
    ensures forall x :: map[a := ha, b := hb][b := x] == map[a := ha, b := x]
  {
    var m := map[a := ha, b := hb];
    assert m.Keys == {a, b};
    assert |m| == |m.Keys|;
  }

  // ---------------------------------------------------------------- one step of the first host

  lemma DoStart(a: Name, b: Name, ha: Host, hb: Host, net: set<Packet>, sent: set<Packet>, log: Log, t: Tid, q: Request)
    requires a != b
    requires t !in log
    ensures Taken(Two(a, b, ha, hb, net, sent, log), Start(a, t, q),
                  Two(a, b, RegisterOwn(ha, Message(t, a, Req(q))), hb, net, sent, log[t := Issued(a, q)]))
  {
    TwoHosts(a, b, ha, hb);
  }

  lemma DoCheck(a: Name, b: Name, ha: Host, hb: Host, net: set<Packet>, sent: set<Packet>, log: Log, i: nat)
    requires a != b
    requires i < |ha.txs| && ha.txs[i].phase.Checking?
    ensures Taken(Two(a, b, ha, hb, net, sent, log), Check(a, i),
                  Two(a, b, Checked(a, ha, i), hb, net, sent, log))
  {
    TwoHosts(a, b, ha, hb);
  }

  lemma DoBroadcast(a: Name, b: Name, ha: Host, hb: Host, net: set<Packet>, sent: set<Packet>, log: Log,
                    i: nat, p: Packet)
    requires a != b
    requires i < |ha.txs| && ha.txs[i].phase.Sending? && ha.txs[i].data.request.Some?
    requires p == Packet(b, Message(ha.txs[i].data.tid, a, Req(ha.txs[i].data.request.value)))
    ensures Taken(Two(a, b, ha, hb, net, sent, log), Broadcast(a, i, Tried({}), {b}),
                  Two(a, b, SetTx(ha, i, ha.txs[i].(phase := Awaiting(1, false))), hb, net + {p}, sent + {p}, log))
  {
    TwoHosts(a, b, ha, hb);
    assert Packets(p.msg, {b}) == {p};
  }

  lemma DoDeliver(a: Name, b: Name, ha: Host, hb: Host, net: set<Packet>, sent: set<Packet>, log: Log, p: Packet)
    requires a != b
    requires p in net && p.to == a && ha.listener.Idle?
    requires p.msg.tid in ha.registry ==> ha.registry[p.msg.tid] < |ha.txs|
    ensures Taken(Two(a, b, ha, hb, net, sent, log), Deliver(p),
                  Two(a, b, Store(ha, p.msg, 1), hb, net - {p}, sent, log))
  {
    TwoHosts(a, b, ha, hb);
  }

  lemma DoRendezvous(a: Name, b: Name, ha: Host, hb: Host, net: set<Packet>, sent: set<Packet>, log: Log,
                     i: nat, msg: Message)
    requires a != b
    requires ha.listener == Busy(i, msg) && i < |ha.txs|
    requires ha.txs[i].phase.Awaiting? && ha.txs[i].consumed < ha.txs[i].phase.target
    ensures Taken(Two(a, b, ha, hb, net, sent, log), Rendezvous(a),
                  Two(a, b, SetTx(ha, i, Take(ha.txs[i], msg)).(listener := Idle), hb, net, sent, log))
  {
    TwoHosts(a, b, ha, hb);
  }

  lemma NoPackets(msg: Message, net: set<Packet>, sent: set<Packet>)
    ensures net + Packets(msg, {}) == net && sent + Packets(msg, {}) == sent
  {
    assert Packets(msg, {}) == {};
  }

  lemma VoteApplied(s: State, h: Name, i: nat, consulted: Response, response: Response, reached: set<Name>)
    requires Enabled(s, Vote(h, i, consulted, reached))
    requires var tx := s.hosts[h].txs[i]; VoteOn(s.hosts[h], tx.arrived[tx.consumed - 1], consulted) == response
    ensures var packets := Packets(Message(s.hosts[h].txs[i].data.tid, h, Resp(response)), reached);
            Apply(s, Vote(h, i, consulted, reached)) ==
            s.(hosts := s.hosts[h := RecordVote(s.hosts[h], i, response, |s.hosts| - 1)],
               net := s.net + packets, sent := s.sent + packets)
  {
    hide VoteOn, RecordVote, Packets;
  }

  /** A vote whose broadcast reaches nobody. */
  lemma DoVote(a: Name, b: Name, ha: Host, hb: Host, net: set<Packet>, sent: set<Packet>, log: Log, i: nat)
    requires a != b
    requires i < |ha.txs| && ha.txs[i].phase.Voting? && 0 < ha.txs[i].consumed <= |ha.txs[i].arrived|
    requires VoteOn(ha, ha.txs[i].arrived[ha.txs[i].consumed - 1], ACK) == ACK
    ensures Taken(Two(a, b, ha, hb, net, sent, log), Vote(a, i, ACK, {}),
                  Two(a, b, RecordVote(ha, i, ACK, 1), hb, net, sent, log))
  {
    hide VoteOn, RecordVote, Apply, Packets;
    TwoHosts(a, b, ha, hb);
    VoteApplied(Two(a, b, ha, hb, net, sent, log), a, i, ACK, ACK, {});
    NoPackets(Message(ha.txs[i].data.tid, a, Resp(ACK)), net, sent);
  }

  /** A vote whose broadcast reaches the other host. */
  lemma DoVoteTo(a: Name, b: Name, ha: Host, hb: Host, net: set<Packet>, sent: set<Packet>, log: Log, i: nat,
                 consulted: Response, response: Response, p: Packet)
    requires a != b && consulted != NACK(ERR_TRANSACTION_CONFLICT)
    requires i < |ha.txs| && ha.txs[i].phase.Voting? && 0 < ha.txs[i].consumed <= |ha.txs[i].arrived|
    requires VoteOn(ha, ha.txs[i].arrived[ha.txs[i].consumed - 1], consulted) == response
    requires p == Packet(b, Message(ha.txs[i].data.tid, a, Resp(response)))
    ensures Taken(Two(a, b, ha, hb, net, sent, log), Vote(a, i, consulted, {b}),
                  Two(a, b, RecordVote(ha, i, response, 1), hb, net + {p}, sent + {p}, log))
  {
    hide VoteOn, RecordVote, Apply, Packets;
    TwoHosts(a, b, ha, hb);
    VoteApplied(Two(a, b, ha, hb, net, sent, log), a, i, consulted, response, {b});
    OnePacket(p);
  }

  lemma OnePacket(p: Packet)
    ensures Packets(p.msg, {p.to}) == {p}
  {
  }

  lemma DoDecide(a: Name, b: Name, ha: Host, hb: Host, net: set<Packet>, sent: set<Packet>, log: Log, i: nat)
    requires a != b
    requires i < |ha.txs| && ha.txs[i].phase.Awaiting? && ha.txs[i].consumed == ha.txs[i].phase.target
    ensures Taken(Two(a, b, ha, hb, net, sent, log), Decide(a, i),
                  Two(a, b, Decided(ha, i), hb, net, sent, log))
  {
    TwoHosts(a, b, ha, hb);
  }

  lemma DoTimeout(a: Name, b: Name, ha: Host, hb: Host, net: set<Packet>, sent: set<Packet>, log: Log, i: nat)
    requires a != b
    requires i < |ha.txs| && ha.txs[i].phase.Awaiting? && ha.txs[i].consumed < ha.txs[i].phase.target
    ensures Taken(Two(a, b, ha, hb, net, sent, log), Timeout(a, i),
                  Two(a, b, SetTx(ha, i, ha.txs[i].(phase := Returned(TimedOut))), hb, net, sent, log))
  {
    TwoHosts(a, b, ha, hb);
  }

  lemma DoDelete(a: Name, b: Name, ha: Host, hb: Host, net: set<Packet>, sent: set<Packet>, log: Log, i: nat)
    requires a != b
    requires i < |ha.txs| && ha.txs[i].phase.Returned?
    ensures Taken(Two(a, b, ha, hb, net, sent, log), Step.Delete(a, i),
                  Two(a, b, SetTx(ha, i, ha.txs[i].(phase := Deleted(ha.txs[i].phase.outcome)))
                              .(registry := ha.registry - {ha.txs[i].data.tid}), hb, net, sent, log))
  {
    TwoHosts(a, b, ha, hb);
  }

  lemma DoMirror(a: Name, b: Name, ha: Host, hb: Host, net: set<Packet>, sent: set<Packet>, log: Log, i: nat)
    requires a != b
    requires i < |ha.txs| && ha.txs[i].phase.Mirroring? && ha.txs[i].data.request.Some?
    ensures Taken(Two(a, b, ha, hb, net, sent, log), MirrorReturns(a, i),
                  Two(a, b, SetTx(ha, i, ha.txs[i].(phase := Returned(Success))), hb, net, sent, log))
  {
    TwoHosts(a, b, ha, hb);
  }

  /** A run that goes on. */
  ghost predicate Prolongs(r: Run, r': Run) {
    IsRun(r) && IsRun(r') && r.states <= r'.states && r.steps <= r'.steps
  }

  lemma Prolongs2(r: Run, r': Run, r'': Run)
    requires Prolongs(r, r') && Prolongs(r', r'')
    ensures Prolongs(r, r'')
  {
    hide IsRun;
  }

  lemma AreRuns(r: Run, r': Run)
    requires Prolongs(r, r')
    ensures IsRun(r) && IsRun(r')
  {
    hide IsRun;
  }

  /** Extend a run by one step. */
  lemma Then(r: Run, last: State, step: Step, s: State) returns (r': Run)
    requires IsRun(r) && r.states[|r.states| - 1] == last && Taken(last, step, s)
    ensures IsRun(r') && |r'.states| > 0 && r'.states[|r'.states| - 1] == s
  {
    hide Taken, Initial;
    r' := Run(r.states + [s], r.steps + [step]);
    forall k | 0 <= k < |r'.steps|
      ensures Taken(r'.states[k], r'.steps[k], r'.states[k + 1])
    {
      if k < |r.steps| {
        assert Taken(r.states[k], r.steps[k], r.states[k + 1]);
      }
    }
  }

  lemma TwoInitial(a: Name, b: Name, clockA: Uint64, clockB: Uint64) returns (r: Run)
    requires a != b
    ensures IsRun(r) && r.states == [Two(a, b, NewHost(clockA), NewHost(clockB), {}, {}, map[])] && r.steps == []
  {
    TwoHosts(a, b, NewHost(clockA), NewHost(clockB));
    r := Run([Two(a, b, NewHost(clockA), NewHost(clockB), {}, {}, map[])], []);
  }

  // ---------------------------------------------------------------- a lost answer

  function Asked(a: Name, t: Tid, q: Request): Message { Message(t, a, Req(q)) }

  function OwnTx(a: Name, t: Tid, q: Request, phase: Phase): Tx {
    Tx(TxData(t, a, Some(q), []), Replicator, [], 0, None, phase)
  }

  function PeerTx(a: Name, t: Tid, q: Request, consumed: nat, vote: Option<Response>, phase: Phase): Tx {
    Tx(TxData(t, a, Some(q), []), Handler, [Asked(a, t, q)], consumed, vote, phase)
  }

  function Caller(a: Name, t: Tid, q: Request, clock: Uint64, phase: Phase): Host {
    Host(map[t := 0], [OwnTx(a, t, q, phase)], Idle, clock, map[])
  }

  function Callee(a: Name, t: Tid, q: Request, clock: Uint64, consumed: nat, listener: Listener,
                  vote: Option<Response>, phase: Phase): Host
  {
    Host(map[t := 0], [PeerTx(a, t, q, consumed, vote, phase)], listener, clock,
         if vote.Some? then map[t := vote.value] else map[])
  }

  lemma CallerMoves(a: Name, t: Tid, q: Request, clock: Uint64)
    ensures RegisterOwn(NewHost(clock), Message(t, a, Req(q))) == Caller(a, t, q, clock, Checking)
    ensures Checked(a, Caller(a, t, q, clock, Checking), 0) == Caller(a, t, q, clock, Phase.Sending)
    ensures forall x, y :: SetTx(Caller(a, t, q, clock, x), 0, OwnTx(a, t, q, y)) == Caller(a, t, q, clock, y)
  {
  }

  lemma CalleeMoves(a: Name, t: Tid, q: Request, clock: Uint64)
    ensures Store(NewHost(clock), Asked(a, t, q), 1)
            == Callee(a, t, q, clock, 0, Busy(0, Asked(a, t, q)), None, Awaiting(1, false))
    ensures var d := Callee(a, t, q, clock, 0, Busy(0, Asked(a, t, q)), None, Awaiting(1, false));
            SetTx(d, 0, Take(d.txs[0], Asked(a, t, q))).(listener := Idle)
            == Callee(a, t, q, clock, 1, Idle, None, Voting)
    ensures VoteOn(Callee(a, t, q, clock, 1, Idle, None, Voting), Asked(a, t, q), ACK) == ACK
    ensures RecordVote(Callee(a, t, q, clock, 1, Idle, None, Voting), 0, ACK, 1)
            == Callee(a, t, q, clock, 1, Idle, Some(ACK), Awaiting(1, false))
    ensures Decided(Callee(a, t, q, clock, 1, Idle, Some(ACK), Awaiting(1, false)), 0)
            == Callee(a, t, q, clock, 1, Idle, Some(ACK), Mirroring)
  {
  }

  /** A request goes out and reaches the peer, which is about to vote. */
  lemma AskAndHear(a: Name, b: Name, t: Tid, q: Request, clock: Uint64) returns (r: Run)
    requires a != b
    ensures IsRun(r) && |r.states| > 0
    ensures r.states[|r.states| - 1] ==
            Two(b, a, Callee(a, t, q, clock, 1, Idle, None, Voting), Caller(a, t, q, clock, Awaiting(1, false)),
                {}, {Packet(b, Asked(a, t, q))}, map[t := Issued(a, q)])
  {
    hide Taken, IsRun, Two;
    var log := map[t := Issued(a, q)];
    var m := Asked(a, t, q);
    var p := Packet(b, m);
    var idle, wait := NewHost(clock), Awaiting(1, false);
    var c0, c1 := Caller(a, t, q, clock, Checking), Caller(a, t, q, clock, Phase.Sending);
    var c2 := Caller(a, t, q, clock, wait);
    CallerMoves(a, t, q, clock);
    r := TwoInitial(a, b, clock, clock);
    DoStart(a, b, idle, idle, {}, {}, map[], t, q);
    assert map[][t := Issued(a, q)] == log;
    r := Then(r, Two(a, b, idle, idle, {}, {}, map[]), Start(a, t, q), Two(a, b, c0, idle, {}, {}, log));
    DoCheck(a, b, c0, idle, {}, {}, log, 0);
    r := Then(r, Two(a, b, c0, idle, {}, {}, log), Check(a, 0), Two(a, b, c1, idle, {}, {}, log));
    DoBroadcast(a, b, c1, idle, {}, {}, log, 0, p);
    assert {} + {p} == {p};
    r := Then(r, Two(a, b, c1, idle, {}, {}, log), Broadcast(a, 0, Tried({}), {b}), Two(a, b, c2, idle, {p}, {p}, log));
    r := Hear(r, a, b, t, q, clock);
  }

  lemma Hear(r0: Run, a: Name, b: Name, t: Tid, q: Request, clock: Uint64) returns (r: Run)
    requires a != b && IsRun(r0)
    requires r0.states[|r0.states| - 1] ==
             Two(a, b, Caller(a, t, q, clock, Awaiting(1, false)), NewHost(clock),
                 {Packet(b, Asked(a, t, q))}, {Packet(b, Asked(a, t, q))}, map[t := Issued(a, q)])
    ensures IsRun(r) && |r.states| > 0
    ensures r.states[|r.states| - 1] ==
            Two(b, a, Callee(a, t, q, clock, 1, Idle, None, Voting), Caller(a, t, q, clock, Awaiting(1, false)),
                {}, {Packet(b, Asked(a, t, q))}, map[t := Issued(a, q)])
  {
    hide Taken, IsRun, Two;
    var log := map[t := Issued(a, q)];
    var m := Asked(a, t, q);
    var p := Packet(b, m);
    var idle, wait := NewHost(clock), Awaiting(1, false);
    var c := Caller(a, t, q, clock, wait);
    var d0 := Callee(a, t, q, clock, 0, Busy(0, m), None, wait);
    var d1 := Callee(a, t, q, clock, 1, Idle, None, Voting);
    CalleeMoves(a, t, q, clock);
    Flip(a, b, c, idle, {p}, {p}, log);
    DoDeliver(b, a, idle, c, {p}, {p}, log, p);
    assert {p} - {p} == {};
    r := Then(r0, Two(b, a, idle, c, {p}, {p}, log), Deliver(p), Two(b, a, d0, c, {}, {p}, log));
    DoRendezvous(b, a, d0, c, {}, {p}, log, 0, m);
    r := Then(r, Two(b, a, d0, c, {}, {p}, log), Rendezvous(b), Two(b, a, d1, c, {}, {p}, log));
  }

  /** ... and votes ACK; the answer is lost. */
  lemma AskAndAck(a: Name, b: Name, t: Tid, q: Request, clock: Uint64) returns (r: Run)
    requires a != b
    ensures IsRun(r) && |r.states| > 0
    ensures r.states[|r.states| - 1] ==
            Two(a, b, Caller(a, t, q, clock, Awaiting(1, false)),
                Callee(a, t, q, clock, 1, Idle, Some(ACK), Awaiting(1, false)),
                {}, {Packet(b, Asked(a, t, q))}, map[t := Issued(a, q)])
  {
    hide Taken, IsRun, Two;
    var log := map[t := Issued(a, q)];
    var p := Packet(b, Asked(a, t, q));
    var c := Caller(a, t, q, clock, Awaiting(1, false));
    var d1 := Callee(a, t, q, clock, 1, Idle, None, Voting);
    var d2 := Callee(a, t, q, clock, 1, Idle, Some(ACK), Awaiting(1, false));
    CalleeMoves(a, t, q, clock);
    r := AskAndHear(a, b, t, q, clock);
    DoVote(b, a, d1, c, {}, {p}, log, 0);
    r := Then(r, Two(b, a, d1, c, {}, {p}, log), Vote(b, 0, ACK, {}), Two(b, a, d2, c, {}, {p}, log));
    Flip(a, b, c, d2, {}, {p}, log);
  }

  /** Commit is not atomic: whatever the request, there is a run in which the peer
      mirrors it and the Replicate call that issued it times out. */
  lemma CommitIsNotAtomic(a: Name, b: Name, t: Tid, q: Request, clock: Uint64) returns (r: Run)
    requires a != b
    ensures IsRun(r)
    ensures var s := r.states[|r.states| - 1];
            && s.hosts.Keys == {a, b} && t in s.started && s.started[t] == Issued(a, q)
            && HasTx(s, a, 0) && s.hosts[a].txs[0].data.tid == t && EndedWith(s.hosts[a].txs[0], TimedOut)
            && HasTx(s, b, 0) && s.hosts[b].txs[0].data.tid == t && Committed(s.hosts[b].txs[0])
  {
    var log := map[t := Issued(a, q)];
    var p := Packet(b, Asked(a, t, q));
    var c := Caller(a, t, q, clock, Awaiting(1, false));
    var c' := Caller(a, t, q, clock, Returned(TimedOut));
    var d := Callee(a, t, q, clock, 1, Idle, Some(ACK), Awaiting(1, false));
    var d' := Callee(a, t, q, clock, 1, Idle, Some(ACK), Mirroring);
    TwoHosts(a, b, c', d');
    hide Taken, IsRun;
    CallerMoves(a, t, q, clock);
    CalleeMoves(a, t, q, clock);
    r := AskAndAck(a, b, t, q, clock);
    Flip(a, b, c, d, {}, {p}, log);
    DoDecide(b, a, d, c, {}, {p}, log, 0);
    r := Then(r, Two(b, a, d, c, {}, {p}, log), Decide(b, 0), Two(b, a, d', c, {}, {p}, log));
    Flip(a, b, c, d', {}, {p}, log);
    DoTimeout(a, b, c, d', {}, {p}, log, 0);
    r := Then(r, Two(a, b, c, d', {}, {p}, log), Timeout(a, 0), Two(a, b, c', d', {}, {p}, log));
  }

  // ---------------------------------------------------------------- a late answer

  function Answered(b: Name, t: Tid): Message { Message(t, b, Resp(ACK)) }

  /** The caller after it gave up, with the handler that the late answer created. */
  function Haunted(a: Name, b: Name, t: Tid, q: Request, clock: Uint64,
                   consumed: nat, listener: Listener, phase: Phase): Host
  {
    Host(map[t := 1],
         [OwnTx(a, t, q, Deleted(TimedOut)),
          Tx(TxData(t, "", None, [ACK]), Handler, [Answered(b, t)], consumed, None, phase)],
         listener, clock, map[])
  }

  function GaveUp(a: Name, t: Tid, q: Request, clock: Uint64): Host {
    Host(map[], [OwnTx(a, t, q, Deleted(TimedOut))], Idle, clock, map[])
  }

  lemma GiveUpMoves(a: Name, b: Name, t: Tid, q: Request, clock: Uint64)
    ensures var c := Caller(a, t, q, clock, Returned(TimedOut));
            SetTx(c, 0, c.txs[0].(phase := Deleted(TimedOut))).(registry := c.registry - {t}) == GaveUp(a, t, q, clock)
    ensures Store(GaveUp(a, t, q, clock), Answered(b, t), 1)
            == Haunted(a, b, t, q, clock, 0, Busy(1, Answered(b, t)), Awaiting(1, false))
    ensures var d := Haunted(a, b, t, q, clock, 0, Busy(1, Answered(b, t)), Awaiting(1, false));
            SetTx(d, 1, Take(d.txs[1], Answered(b, t))).(listener := Idle)
            == Haunted(a, b, t, q, clock, 1, Idle, Awaiting(1, false))
    ensures Decided(Haunted(a, b, t, q, clock, 1, Idle, Awaiting(1, false)), 1)
            == Haunted(a, b, t, q, clock, 1, Idle, Mirroring)
  {
    assert map[t := 0] - {t} == map[];
    assert Absorb(Fresh(t), Answered(b, t)) == TxData(t, "", None, [ACK]);
    assert GaveUp(a, t, q, clock).registry[t := 1] == map[t := 1];
  }

  /** Mirror can be called without a request: whatever the request, there is a run in
      which its issuer gives up, the late answer recreates the transaction there as a
      handler's, and that handler commits with nothing to mirror. */
  lemma MirrorsNothing(a: Name, b: Name, t: Tid, q: Request, clock: Uint64) returns (r: Run)
    requires a != b
    ensures IsRun(r)
    ensures var s := r.states[|r.states| - 1];
            && t in s.started && s.started[t] == Issued(a, q)
            && HasTx(s, a, 1) && s.hosts[a].txs[1].data.tid == t && s.hosts[a].txs[1].owner.Handler?
            && s.hosts[a].txs[1].phase.Mirroring? && s.hosts[a].txs[1].data.request.None?
  {
    var log := map[t := Issued(a, q)];
    var p, p' := Packet(b, Asked(a, t, q)), Packet(a, Answered(b, t));
    var wait := Awaiting(1, false);
    var c, c' := Caller(a, t, q, clock, wait), Caller(a, t, q, clock, Returned(TimedOut));
    var d, d' := Callee(a, t, q, clock, 1, Idle, None, Voting), Callee(a, t, q, clock, 1, Idle, Some(ACK), wait);
    hide Taken, IsRun, Two;
    CallerMoves(a, t, q, clock);
    CalleeMoves(a, t, q, clock);
    GiveUpMoves(a, b, t, q, clock);
    r := AskAndHear(a, b, t, q, clock);
    DoVoteTo(b, a, d, c, {}, {p}, log, 0, ACK, ACK, p');
    assert {} + {p'} == {p'};
    r := Then(r, Two(b, a, d, c, {}, {p}, log), Vote(b, 0, ACK, {a}), Two(b, a, d', c, {p'}, {p} + {p'}, log));
    Flip(a, b, c, d', {p'}, {p} + {p'}, log);
    DoTimeout(a, b, c, d', {p'}, {p} + {p'}, log, 0);
    r := Then(r, Two(a, b, c, d', {p'}, {p} + {p'}, log), Timeout(a, 0), Two(a, b, c', d', {p'}, {p} + {p'}, log));
    DoDelete(a, b, c', d', {p'}, {p} + {p'}, log, 0);
    r := Then(r, Two(a, b, c', d', {p'}, {p} + {p'}, log), Step.Delete(a, 0),
              Two(a, b, GaveUp(a, t, q, clock), d', {p'}, {p} + {p'}, log));
    r := LateAnswer(r, a, b, t, q, clock, d', {p} + {p'}, log);
    TwoAt(a, b, Haunted(a, b, t, q, clock, 1, Idle, Mirroring), d', {}, {p} + {p'}, log);
  }

  lemma TwoAt(a: Name, b: Name, ha: Host, hb: Host, net: set<Packet>, sent: set<Packet>, log: Log)
    requires a != b
    ensures var s := Two(a, b, ha, hb, net, sent, log);
            a in s.hosts && s.hosts[a] == ha && b in s.hosts && s.hosts[b] == hb && s.started == log
  {
  }

  lemma LateAnswer(r0: Run, a: Name, b: Name, t: Tid, q: Request, clock: Uint64, hb: Host, sent: set<Packet>, log: Log)
    returns (r: Run)
    requires a != b && IsRun(r0)
    requires r0.states[|r0.states| - 1] ==
             Two(a, b, GaveUp(a, t, q, clock), hb, {Packet(a, Answered(b, t))}, sent, log)
    ensures IsRun(r) && |r.states| > 0
    ensures r.states[|r.states| - 1] == Two(a, b, Haunted(a, b, t, q, clock, 1, Idle, Mirroring), hb, {}, sent, log)
  {
    hide Taken, IsRun, Two;
    var m := Answered(b, t);
    var p := Packet(a, m);
    var e0 := Haunted(a, b, t, q, clock, 0, Busy(1, m), Awaiting(1, false));
    var e1 := Haunted(a, b, t, q, clock, 1, Idle, Awaiting(1, false));
    var e2 := Haunted(a, b, t, q, clock, 1, Idle, Mirroring);
    GiveUpMoves(a, b, t, q, clock);
    DoDeliver(a, b, GaveUp(a, t, q, clock), hb, {p}, sent, log, p);
    assert {p} - {p} == {};
    r := Then(r0, Two(a, b, GaveUp(a, t, q, clock), hb, {p}, sent, log), Deliver(p), Two(a, b, e0, hb, {}, sent, log));
    DoRendezvous(a, b, e0, hb, {}, sent, log, 1, m);
    r := Then(r, Two(a, b, e0, hb, {}, sent, log), Rendezvous(a), Two(a, b, e1, hb, {}, sent, log));
    DoDecide(a, b, e1, hb, {}, sent, log, 1);
    r := Then(r, Two(a, b, e1, hb, {}, sent, log), Decide(a, 1), Two(a, b, e2, hb, {}, sent, log));
  }

  // ---------------------------------------------------------------- a refusal

  function Refused(b: Name, t: Tid, e: ResponseError): Message { Message(t, b, Resp(NACK(e))) }

  /** The caller once the refusal has arrived. */
  function Turned(a: Name, b: Name, t: Tid, q: Request, clock: Uint64, e: ResponseError,
                  consumed: nat, listener: Listener, phase: Phase): Host
  {
    Host(map[t := 0],
         [Tx(TxData(t, a, Some(q), [NACK(e)]), Replicator, [Refused(b, t, e)], consumed, None, phase)],
         listener, clock, map[])
  }

  lemma RefusalMoves(a: Name, b: Name, t: Tid, q: Request, clock: Uint64, e: ResponseError)
    requires e != ERR_TRANSACTION_CONFLICT
    ensures var d := Callee(a, t, q, clock, 1, Idle, None, Voting);
            && VoteOn(d, Asked(a, t, q), NACK(e)) == NACK(e)
            && RecordVote(d, 0, NACK(e), 1) == Callee(a, t, q, clock, 1, Idle, Some(NACK(e)), Awaiting(1, false))
    ensures Store(Caller(a, t, q, clock, Awaiting(1, false)), Refused(b, t, e), 1)
            == Turned(a, b, t, q, clock, e, 0, Busy(0, Refused(b, t, e)), Awaiting(1, false))
    ensures var c := Turned(a, b, t, q, clock, e, 0, Busy(0, Refused(b, t, e)), Awaiting(1, false));
            SetTx(c, 0, Take(c.txs[0], Refused(b, t, e))).(listener := Idle)
            == Turned(a, b, t, q, clock, e, 1, Idle, Awaiting(1, false))
    ensures Decided(Turned(a, b, t, q, clock, e, 1, Idle, Awaiting(1, false)), 0)
            == Turned(a, b, t, q, clock, e, 1, Idle, Returned(NotPermitted))
  {
    var c := Caller(a, t, q, clock, Awaiting(1, false));
    assert Absorb(c.txs[0].data, Refused(b, t, e)).responses == [NACK(e)];
    assert c.txs[0].arrived + [Refused(b, t, e)] == [Refused(b, t, e)];
    assert NACK(e) in [NACK(e)];
  }

  /** Consult can refuse anything, and then the call fails: for any request and any error
      but a conflict there is a run in which the peer votes that error and the issuer is
      refused, its clock as before. */
  lemma ConsultCanRefuse(a: Name, b: Name, t: Tid, q: Request, clock: Uint64, e: ResponseError) returns (r: Run)
    requires a != b && e != ERR_TRANSACTION_CONFLICT
    ensures IsRun(r)
    ensures var s := r.states[|r.states| - 1];
            && t in s.started && s.started[t] == Issued(a, q)
            && b in s.hosts && t in s.hosts[b].votes && s.hosts[b].votes[t] == NACK(e)
            && HasTx(s, a, 0) && s.hosts[a].txs[0].data.tid == t && EndedWith(s.hosts[a].txs[0], NotPermitted)
            && s.hosts[a].clock == clock
  {
    var log := map[t := Issued(a, q)];
    var p, p' := Packet(b, Asked(a, t, q)), Packet(a, Refused(b, t, e));
    var wait, sent := Awaiting(1, false), {Packet(b, Asked(a, t, q))} + {Packet(a, Refused(b, t, e))};
    var c, d := Caller(a, t, q, clock, wait), Callee(a, t, q, clock, 1, Idle, None, Voting);
    var d' := Callee(a, t, q, clock, 1, Idle, Some(NACK(e)), wait);
    var c0 := Turned(a, b, t, q, clock, e, 0, Busy(0, Refused(b, t, e)), wait);
    var c1 := Turned(a, b, t, q, clock, e, 1, Idle, wait);
    var c2 := Turned(a, b, t, q, clock, e, 1, Idle, Returned(NotPermitted));
    hide Taken, IsRun, Two;
    RefusalMoves(a, b, t, q, clock, e);
    r := AskAndHear(a, b, t, q, clock);
    DoVoteTo(b, a, d, c, {}, {p}, log, 0, NACK(e), NACK(e), p');
    assert {} + {p'} == {p'} && {p'} - {p'} == {};
    r := Then(r, Two(b, a, d, c, {}, {p}, log), Vote(b, 0, NACK(e), {a}), Two(b, a, d', c, {p'}, sent, log));
    Flip(a, b, c, d', {p'}, sent, log);
    DoDeliver(a, b, c, d', {p'}, sent, log, p');
    r := Then(r, Two(a, b, c, d', {p'}, sent, log), Deliver(p'), Two(a, b, c0, d', {}, sent, log));
    DoRendezvous(a, b, c0, d', {}, sent, log, 0, p'.msg);
    r := Then(r, Two(a, b, c0, d', {}, sent, log), Rendezvous(a), Two(a, b, c1, d', {}, sent, log));
    DoDecide(a, b, c1, d', {}, sent, log, 0);
    r := Then(r, Two(a, b, c1, d', {}, sent, log), Decide(a, 0), Two(a, b, c2, d', {}, sent, log));
    TwoAt(a, b, c2, d', {}, sent, log);
  }

  // ---------------------------------------------------------------- two winners

  /** The host of the winner: it has voted for the loser and then started its own. */
  function Winner(a: Name, b: Name, ta: Tid, tb: Tid, qa: Request, qb: Request, clock: Uint64,
                  peerPhase: Phase, ownPhase: Phase): Host
  {
    Host(map[tb := 0, ta := 1],
         [PeerTx(b, tb, qb, 1, Some(ACK), peerPhase), OwnTx(a, ta, qa, ownPhase)], Idle, clock, map[tb := ACK])
  }

  /** The host of the loser: its own request is out when the winner's arrives. */
  function Loser(a: Name, b: Name, ta: Tid, tb: Tid, qa: Request, qb: Request, clock: Uint64,
                 consumed: nat, listener: Listener, vote: Option<Response>, phase: Phase): Host
  {
    Host(map[tb := 0, ta := 1],
         [OwnTx(b, tb, qb, Awaiting(1, false)), PeerTx(a, ta, qa, consumed, vote, phase)], listener, clock,
         if vote.Some? then map[ta := vote.value] else map[])
  }

  /** Two registered requests, neither of which beats the winner's. */
  lemma NoRefusal(host: Host, a: Name, b: Name, ta: Tid, tb: Tid, qa: Request, qb: Request)
    requires ta != tb && !Beats(Issued(b, qb), Issued(a, qa))
    requires ViewOf(host) == map[tb := TxData(tb, b, Some(qb), []), ta := TxData(ta, a, Some(qa), [])]
    ensures !InConflict(ViewOf(host), Message(ta, a, Req(qa)))
  {
    hide Beats;
    BeatsIrreflexive(Issued(a, qa));
  }

  lemma WinnerChecks(a: Name, b: Name, ta: Tid, tb: Tid, qa: Request, qb: Request, clock: Uint64)
    requires a != b && ta != tb && !Beats(Issued(b, qb), Issued(a, qa))
    ensures Checked(a, Winner(a, b, ta, tb, qa, qb, clock, Awaiting(1, false), Checking), 1)
            == Winner(a, b, ta, tb, qa, qb, clock, Awaiting(1, false), Phase.Sending)
  {
    hide Beats, InConflict;
    var host := Winner(a, b, ta, tb, qa, qb, clock, Awaiting(1, false), Checking);
    assert ViewOf(host) == map[tb := TxData(tb, b, Some(qb), []), ta := TxData(ta, a, Some(qa), [])];
    NoRefusal(host, a, b, ta, tb, qa, qb);
  }

  lemma WinnerMoves(a: Name, b: Name, ta: Tid, tb: Tid, qa: Request, qb: Request, clock: Uint64)
    requires a != b && ta != tb
    ensures var w := Awaiting(1, false);
            && RegisterOwn(Callee(b, tb, qb, clock, 1, Idle, Some(ACK), w), Message(ta, a, Req(qa)))
               == Winner(a, b, ta, tb, qa, qb, clock, w, Checking)
            && SetTx(Winner(a, b, ta, tb, qa, qb, clock, w, Phase.Sending), 1, OwnTx(a, ta, qa, w))
               == Winner(a, b, ta, tb, qa, qb, clock, w, w)
            && Decided(Winner(a, b, ta, tb, qa, qb, clock, w, w), 0)
               == Winner(a, b, ta, tb, qa, qb, clock, Mirroring, w)
  {
  }

  lemma LoserVotes(a: Name, b: Name, ta: Tid, tb: Tid, qa: Request, qb: Request, clock: Uint64)
    requires a != b && ta != tb && !Beats(Issued(b, qb), Issued(a, qa))
    ensures VoteOn(Loser(a, b, ta, tb, qa, qb, clock, 1, Idle, None, Voting), Asked(a, ta, qa), ACK) == ACK
  {
    hide Beats, InConflict;
    var host := Loser(a, b, ta, tb, qa, qb, clock, 1, Idle, None, Voting);
    assert ViewOf(host) == map[tb := TxData(tb, b, Some(qb), []), ta := TxData(ta, a, Some(qa), [])];
    NoRefusal(host, a, b, ta, tb, qa, qb);
  }

  lemma LoserMoves(a: Name, b: Name, ta: Tid, tb: Tid, qa: Request, qb: Request, clock: Uint64)
    requires a != b && ta != tb
    ensures var w, m := Awaiting(1, false), Asked(a, ta, qa);
            && Store(Caller(b, tb, qb, clock, w), m, 1) == Loser(a, b, ta, tb, qa, qb, clock, 0, Busy(1, m), None, w)
            && SetTx(Loser(a, b, ta, tb, qa, qb, clock, 0, Busy(1, m), None, w), 1, PeerTx(a, ta, qa, 1, None, Voting))
                 .(listener := Idle)
               == Loser(a, b, ta, tb, qa, qb, clock, 1, Idle, None, Voting)
            && RecordVote(Loser(a, b, ta, tb, qa, qb, clock, 1, Idle, None, Voting), 1, ACK, 1)
               == Loser(a, b, ta, tb, qa, qb, clock, 1, Idle, Some(ACK), w)
            && Decided(Loser(a, b, ta, tb, qa, qb, clock, 1, Idle, Some(ACK), w), 1)
               == Loser(a, b, ta, tb, qa, qb, clock, 1, Idle, Some(ACK), Mirroring)
  {
  }

  /** Exclusion is only conditional: whenever one request beats another, there is a
      run in which both are mirrored, because the winner started after its host had
      voted for the loser. */
  lemma BothCanCommit(a: Name, b: Name, ta: Tid, tb: Tid, qa: Request, qb: Request, clock: Uint64) returns (r: Run)
    requires a != b && ta != tb && Beats(Issued(a, qa), Issued(b, qb))
    ensures IsRun(r)
    ensures var s := r.states[|r.states| - 1];
            && ta in s.started && s.started[ta] == Issued(a, qa) && tb in s.started && s.started[tb] == Issued(b, qb)
            && HasTx(s, a, 0) && s.hosts[a].txs[0].data.tid == tb && Committed(s.hosts[a].txs[0])
            && HasTx(s, b, 1) && s.hosts[b].txs[1].data.tid == ta && Committed(s.hosts[b].txs[1])
  {
    BeatsTotal(Issued(a, qa), Issued(b, qb));
    var w := Awaiting(1, false);
    TwoHosts(a, b, Winner(a, b, ta, tb, qa, qb, clock, Mirroring, w),
             Loser(a, b, ta, tb, qa, qb, clock, 1, Idle, Some(ACK), Mirroring));
    hide Taken, IsRun, Beats;
    r := AskAndAck(b, a, tb, qb, clock);
    r := WinnerAsks(r, a, b, ta, tb, qa, qb, clock);
    r := LoserAcks(r, a, b, ta, tb, qa, qb, clock);
  }

  lemma WinnerAsks(r0: Run, a: Name, b: Name, ta: Tid, tb: Tid, qa: Request, qb: Request, clock: Uint64)
    returns (r: Run)
    requires a != b && ta != tb && !Beats(Issued(b, qb), Issued(a, qa)) && IsRun(r0)
    requires r0.states[|r0.states| - 1] ==
             Two(b, a, Caller(b, tb, qb, clock, Awaiting(1, false)),
                 Callee(b, tb, qb, clock, 1, Idle, Some(ACK), Awaiting(1, false)),
                 {}, {Packet(a, Asked(b, tb, qb))}, map[tb := Issued(b, qb)])
    ensures IsRun(r) && |r.states| > 0
    ensures r.states[|r.states| - 1] ==
            Two(a, b, Winner(a, b, ta, tb, qa, qb, clock, Awaiting(1, false), Awaiting(1, false)),
                Caller(b, tb, qb, clock, Awaiting(1, false)),
                {Packet(b, Asked(a, ta, qa))}, {Packet(a, Asked(b, tb, qb)), Packet(b, Asked(a, ta, qa))},
                map[tb := Issued(b, qb), ta := Issued(a, qa)])
  {
    hide Taken, IsRun, Two, Beats;
    var w := Awaiting(1, false);
    var log, log' := map[tb := Issued(b, qb)], map[tb := Issued(b, qb), ta := Issued(a, qa)];
    var p, p' := Packet(a, Asked(b, tb, qb)), Packet(b, Asked(a, ta, qa));
    var c, d := Caller(b, tb, qb, clock, w), Callee(b, tb, qb, clock, 1, Idle, Some(ACK), w);
    var w0 := Winner(a, b, ta, tb, qa, qb, clock, w, Checking);
    var w1 := Winner(a, b, ta, tb, qa, qb, clock, w, Phase.Sending);
    var w2 := Winner(a, b, ta, tb, qa, qb, clock, w, w);
    WinnerMoves(a, b, ta, tb, qa, qb, clock);
    WinnerChecks(a, b, ta, tb, qa, qb, clock);
    Flip(a, b, d, c, {}, {p}, log);
    DoStart(a, b, d, c, {}, {p}, log, ta, qa);
    assert log[ta := Issued(a, qa)] == log';
    r := Then(r0, Two(a, b, d, c, {}, {p}, log), Start(a, ta, qa), Two(a, b, w0, c, {}, {p}, log'));
    DoCheck(a, b, w0, c, {}, {p}, log', 1);
    r := Then(r, Two(a, b, w0, c, {}, {p}, log'), Check(a, 1), Two(a, b, w1, c, {}, {p}, log'));
    DoBroadcast(a, b, w1, c, {}, {p}, log', 1, p');
    assert {} + {p'} == {p'} && {p} + {p'} == {p, p'};
    r := Then(r, Two(a, b, w1, c, {}, {p}, log'), Broadcast(a, 1, Tried({}), {b}),
              Two(a, b, w2, c, {p'}, {p, p'}, log'));
  }

  lemma LoserAcks(r0: Run, a: Name, b: Name, ta: Tid, tb: Tid, qa: Request, qb: Request, clock: Uint64) returns (r: Run)
    requires a != b && ta != tb && !Beats(Issued(b, qb), Issued(a, qa)) && IsRun(r0)
    requires r0.states[|r0.states| - 1] ==
             Two(a, b, Winner(a, b, ta, tb, qa, qb, clock, Awaiting(1, false), Awaiting(1, false)),
                 Caller(b, tb, qb, clock, Awaiting(1, false)),
                 {Packet(b, Asked(a, ta, qa))}, {Packet(a, Asked(b, tb, qb)), Packet(b, Asked(a, ta, qa))},
                 map[tb := Issued(b, qb), ta := Issued(a, qa)])
    ensures IsRun(r) && |r.states| > 0
    ensures r.states[|r.states| - 1] ==
            Two(a, b, Winner(a, b, ta, tb, qa, qb, clock, Mirroring, Awaiting(1, false)),
                Loser(a, b, ta, tb, qa, qb, clock, 1, Idle, Some(ACK), Mirroring),
                {}, {Packet(a, Asked(b, tb, qb)), Packet(b, Asked(a, ta, qa))},
                map[tb := Issued(b, qb), ta := Issued(a, qa)])
  {
    hide Taken, IsRun, Two, Beats;
    var w := Awaiting(1, false);
    var log := map[tb := Issued(b, qb), ta := Issued(a, qa)];
    var m := Asked(a, ta, qa);
    var p, p' := Packet(a, Asked(b, tb, qb)), Packet(b, m);
    var c := Caller(b, tb, qb, clock, w);
    var v, v' := Winner(a, b, ta, tb, qa, qb, clock, w, w), Winner(a, b, ta, tb, qa, qb, clock, Mirroring, w);
    var l0 := Loser(a, b, ta, tb, qa, qb, clock, 0, Busy(1, m), None, w);
    var l1 := Loser(a, b, ta, tb, qa, qb, clock, 1, Idle, None, Voting);
    var l2 := Loser(a, b, ta, tb, qa, qb, clock, 1, Idle, Some(ACK), w);
    var l3 := Loser(a, b, ta, tb, qa, qb, clock, 1, Idle, Some(ACK), Mirroring);
    WinnerMoves(a, b, ta, tb, qa, qb, clock);
    LoserMoves(a, b, ta, tb, qa, qb, clock);
    LoserVotes(a, b, ta, tb, qa, qb, clock);
    Flip(a, b, v, c, {p'}, {p, p'}, log);
    DoDeliver(b, a, c, v, {p'}, {p, p'}, log, p');
    assert {p'} - {p'} == {};
    r := Then(r0, Two(b, a, c, v, {p'}, {p, p'}, log), Deliver(p'), Two(b, a, l0, v, {}, {p, p'}, log));
    DoRendezvous(b, a, l0, v, {}, {p, p'}, log, 1, m);
    r := Then(r, Two(b, a, l0, v, {}, {p, p'}, log), Rendezvous(b), Two(b, a, l1, v, {}, {p, p'}, log));
    DoVote(b, a, l1, v, {}, {p, p'}, log, 1);
    r := Then(r, Two(b, a, l1, v, {}, {p, p'}, log), Vote(b, 1, ACK, {}), Two(b, a, l2, v, {}, {p, p'}, log));
    DoDecide(b, a, l2, v, {}, {p, p'}, log, 1);
    r := Then(r, Two(b, a, l2, v, {}, {p, p'}, log), Decide(b, 1), Two(b, a, l3, v, {}, {p, p'}, log));
    Flip(a, b, v, l3, {}, {p, p'}, log);
    DoDecide(a, b, v, l3, {}, {p, p'}, log, 0);
    r := Then(r, Two(a, b, v, l3, {}, {p, p'}, log), Decide(a, 0), Two(a, b, v', l3, {}, {p, p'}, log));
  }
}
