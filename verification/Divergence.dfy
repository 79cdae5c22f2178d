/** Why convergence needs disjoint requests: one peer issues two requests, the second
after the first has succeeded, and two other peers mirror them in opposite orders. */
module Divergence {
  import opened Names
  import opened Messages
  import opened Registry
  import opened Conflicts
  import opened Responses
  import opened Replication
  import opened ReplicationInvariant
  import opened Scenarios
  import opened EndToEnd
  import opened Convergence
  import Effects
  import M = Mirror

  // ---------------------------------------------------------------- longer runs

  function Last(r: Run): State
    requires |r.states| > 0
  {
    r.states[|r.states| - 1]
  }

  ghost function Mirrored(r: Run, h: Name): seq<Tid>
    requires IsRun(r)
  {
    MirroredTids(r, |r.steps|, h)
  }

  lemma {:induction false} MirroredPrefix(r: Run, r': Run, k: nat, h: Name)
    requires Prolongs(r, r') && k <= |r.steps|
    ensures MirroredTids(r', k, h) == MirroredTids(r, k, h)
  {
    hide Initial, Taken;
    if k == 0 {
    } else {
      MirroredPrefix(r, r', k - 1, h);
    }
  }

  /** One step more. */
  lemma Step1(r: Run, step: Step, s: State) returns (r': Run)
    requires IsRun(r) && Taken(Last(r), step, s)
    ensures Prolongs(r, r') && Last(r') == s && |r'.steps| == |r.steps| + 1 && r'.steps[|r.steps|] == step
    ensures forall h ::
              Mirrored(r', h) == Mirrored(r, h) +
                (if step.MirrorReturns? && step.host == h then
                   assert HasTx(Last(r), h, step.inc); [Last(r).hosts[h].txs[step.inc].data.tid]
                 else [])
  {
    assert step.MirrorReturns? ==> HasTx(Last(r), step.host, step.inc);
    hide Taken, Initial;
    r' := Run(r.states + [s], r.steps + [step]);
    forall k | 0 <= k < |r'.steps|
      ensures Taken(r'.states[k], r'.steps[k], r'.states[k + 1])
    {
      if k < |r.steps| {
        assert Taken(r.states[k], r.steps[k], r.states[k + 1]);
      }
    }
    forall h {
      MirroredPrefix(r, r', |r.steps|, h);
    }
  }

  /** A run that goes on without a Mirror call. */
  ghost predicate Quietly(r: Run, r': Run) {
    Prolongs(r, r') && forall h :: Mirrored(r', h) == Mirrored(r, h)
  }

  lemma Quiet2(r: Run, r': Run, r'': Run)
    requires Quietly(r, r') && Quietly(r', r'')
    ensures Quietly(r, r'')
  {
    hide IsRun, Mirrored;
  }

  /** What a host has mirrored after a quiet stretch. */
  lemma QuietFacts(r: Run, r': Run)
    requires Quietly(r, r')
    ensures IsRun(r) && IsRun(r') && Prolongs(r, r') && forall h :: Mirrored(r', h) == Mirrored(r, h)
  {
    hide IsRun, Mirrored;
  }

  lemma QuietStep(r: Run, step: Step, s: State) returns (r': Run)
    requires IsRun(r) && Taken(Last(r), step, s) && !step.MirrorReturns?
    ensures Quietly(r, r') && Last(r') == s && |r'.steps| == |r.steps| + 1 && r'.steps[|r.steps|] == step
  {
    hide Taken, IsRun, Mirrored;
    r' := Step1(r, step, s);
  }

  // ---------------------------------------------------------------- a handler

  const WAIT: Phase := Awaiting(2, false)

  function Vouch(t: Tid, g: Name): Message { Message(t, g, Resp(ACK)) }

  /** A handler of a's request; `g` is the other bystander, once its vote is in. */
  function HTx(a: Name, t: Tid, q: Request, g: Option<Name>, consumed: nat, vote: Option<Response>, phase: Phase): Tx {
    Tx(TxData(t, a, Some(q), if g.Some? then [ACK] else []), Handler,
       if g.Some? then [Asked(a, t, q), Vouch(t, g.value)] else [Asked(a, t, q)], consumed, vote, phase)
  }

  function WithTx(host: Host, t: Tid, tx: Tx): Host {
    host.(registry := host.registry[t := |host.txs|], txs := host.txs + [tx])
  }

  /** All requests registered here come from a, so none refuses another of a's. */
  predicate AllFrom(host: Host, a: Name) {
    && host.listener.Idle?
    && (forall t :: t in host.registry ==> host.registry[t] < |host.txs|)
    && forall i :: 0 <= i < |host.txs| && host.txs[i].data.request.Some? ==> host.txs[i].data.initiatorName == a
  }

  lemma NoConflict(host: Host, a: Name, msg: Message)
    requires AllFrom(host, a) && msg.peer == a
    ensures !InConflict(ViewOf(host), msg)
  {
  }

  lemma HearsRequest(host: Host, a: Name, t: Tid, q: Request)
    requires AllFrom(host, a) && t !in host.registry
    ensures var i, m := |host.txs|, Asked(a, t, q);
            var h0 := WithTx(host, t, HTx(a, t, q, None, 0, None, WAIT)).(listener := Busy(i, m));
            var h1 := WithTx(host, t, HTx(a, t, q, None, 1, None, Voting));
            && Store(host, m, 2) == h0
            && SetTx(h0, i, Take(h0.txs[i], m)).(listener := Idle) == h1
            && VoteOn(h1, m, ACK) == ACK
            && RecordVote(h1, i, ACK, 2)
               == WithTx(host, t, HTx(a, t, q, None, 1, Some(ACK), WAIT)).(votes := host.votes[t := ACK])
  {
    var h1 := WithTx(host, t, HTx(a, t, q, None, 1, None, Voting));
    NoConflict(h1, a, Asked(a, t, q));
  }

  lemma HearsVote(host: Host, a: Name, t: Tid, q: Request, g: Name, i: nat)
    requires t in host.registry && host.registry[t] == i && i < |host.txs| && host.listener.Idle?
    requires host.txs[i] == HTx(a, t, q, None, 1, Some(ACK), WAIT)
    ensures var m := Vouch(t, g);
            var h0 := SetTx(host, i, HTx(a, t, q, Some(g), 1, Some(ACK), WAIT)).(listener := Busy(i, m));
            var h1 := SetTx(host, i, HTx(a, t, q, Some(g), 2, Some(ACK), WAIT));
            && Store(host, m, 2) == h0
            && SetTx(h0, i, Take(h0.txs[i], m)).(listener := Idle) == h1
            && Decided(h1, i) == SetTx(host, i, HTx(a, t, q, Some(g), 2, Some(ACK), Mirroring))
  {
    var m := Vouch(t, g);
    assert Absorb(host.txs[i].data, m).responses == [ACK];
    assert host.txs[i].arrived + [m] == [Asked(a, t, q), m];
    assert !HasNack([ACK]);
  }

  // ---------------------------------------------------------------- moves of one host

  function Put(s: State, h: Name, host: Host): State { s.(hosts := s.hosts[h := host]) }

  lemma DeliverStep(s: State, p: Packet)
    requires p in s.net && p.to in s.hosts && s.hosts[p.to].listener.Idle? && |s.hosts| == 3
    requires p.msg.tid in s.hosts[p.to].registry ==> s.hosts[p.to].registry[p.msg.tid] < |s.hosts[p.to].txs|
    ensures Taken(s, Deliver(p), Put(s, p.to, Store(s.hosts[p.to], p.msg, 2)).(net := s.net - {p}))
  {
    hide Store;
  }

  lemma RendezvousStep(s: State, h: Name, i: nat, m: Message)
    requires HasTx(s, h, i) && s.hosts[h].listener == Busy(i, m)
    requires s.hosts[h].txs[i].phase == WAIT && s.hosts[h].txs[i].consumed < 2
    ensures Taken(s, Rendezvous(h), Put(s, h, SetTx(s.hosts[h], i, Take(s.hosts[h].txs[i], m)).(listener := Idle)))
  {
    hide Take;
  }

  lemma DecideStep(s: State, h: Name, i: nat)
    requires HasTx(s, h, i) && s.hosts[h].txs[i].phase == WAIT && s.hosts[h].txs[i].consumed == 2
    ensures Taken(s, Decide(h, i), Put(s, h, Decided(s.hosts[h], i)))
  {
    hide Decided;
  }

  lemma MirrorStep(s: State, h: Name, i: nat)
    requires HasTx(s, h, i) && s.hosts[h].txs[i].phase == Mirroring && s.hosts[h].txs[i].data.request.Some?
    ensures Taken(s, MirrorReturns(h, i),
                  Put(s, h, SetTx(s.hosts[h], i, s.hosts[h].txs[i].(phase := Returned(Success)))))
  {
  }

  lemma StartStep(s: State, a: Name, t: Tid, q: Request)
    requires a in s.hosts && t !in s.started
    ensures Taken(s, Start(a, t, q), Put(s, a, RegisterOwn(s.hosts[a], Message(t, a, Req(q))))
                                       .(started := s.started[t := Issued(a, q)]))
  {
    hide RegisterOwn;
  }

  lemma CheckStep(s: State, a: Name, i: nat)
    requires HasTx(s, a, i) && s.hosts[a].txs[i].phase.Checking?
    ensures Taken(s, Check(a, i), Put(s, a, Checked(a, s.hosts[a], i)))
  {
    hide Checked;
  }

  lemma PutPut(s: State, h: Name, h0: Host, h1: Host)
    ensures Put(Put(s, h, h0), h, h1) == Put(s, h, h1)
    ensures h in Put(s, h, h0).hosts && Put(s, h, h0).hosts[h] == h0
    ensures h in s.hosts ==> |Put(s, h, h0).hosts| == |s.hosts| && Put(s, h, h0).hosts.Keys == s.hosts.Keys
  {
    if h in s.hosts {
      assert Put(s, h, h0).hosts.Keys == s.hosts.Keys;
      assert |Put(s, h, h0).hosts| == |Put(s, h, h0).hosts.Keys|;
    }
  }

  /** The request arrives at h, which votes for it. */
  lemma TakesPart(r0: Run, h: Name, a: Name, t: Tid, q: Request, reached: set<Name>) returns (r: Run)
    requires IsRun(r0) && h in Last(r0).hosts && |Last(r0).hosts| == 3 && reached <= Last(r0).hosts.Keys - {h}
    requires AllFrom(Last(r0).hosts[h], a) && t !in Last(r0).hosts[h].registry
    requires Packet(h, Asked(a, t, q)) in Last(r0).net
    ensures Quietly(r0, r)
    ensures var s := Last(r0);
            var voted := HTx(a, t, q, None, 1, Some(ACK), WAIT);
            var host := WithTx(s.hosts[h], t, voted).(votes := s.hosts[h].votes[t := ACK]);
            var votes := Packets(Vouch(t, h), reached);
            Last(r) == Put(s, h, host).(net := s.net - {Packet(h, Asked(a, t, q))} + votes, sent := s.sent + votes)
  {
    var s, m := Last(r0), Asked(a, t, q);
    var host, i, p := s.hosts[h], |s.hosts[h].txs|, Packet(h, m);
    HearsRequest(host, a, t, q);
    hide IsRun, VoteOn, RecordVote, Store, Mirrored, Taken, Packets, Quietly;
    var h0 := WithTx(host, t, HTx(a, t, q, None, 0, None, WAIT)).(listener := Busy(i, m));
    var h1 := WithTx(host, t, HTx(a, t, q, None, 1, None, Voting));
    var h2 := RecordVote(h1, i, ACK, 2);
    var votes := Packets(Vouch(t, h), reached);
    var s1 := Put(s, h, h0).(net := s.net - {p});
    var s2 := Put(s1, h, h1);
    PutPut(s, h, h0, h1);
    PutPut(s1, h, h1, h2);
    DeliverStep(s, p);
    var r1 := QuietStep(r0, Deliver(p), s1);
    QuietFacts(r0, r1);
    RendezvousStep(s1, h, i, m);
    var r2 := QuietStep(r1, Rendezvous(h), s2);
    QuietFacts(r1, r2);
    VoteStep(s2, h, i, t, reached, m);
    r := QuietStep(r2, Vote(h, i, ACK, reached), Put(s2, h, h2).(net := s2.net + votes, sent := s2.sent + votes));
    Quiet2(r0, r1, r2);
    Quiet2(r0, r2, r);
  }

  lemma VoteStep(s: State, h: Name, i: nat, t: Tid, reached: set<Name>, m: Message)
    requires HasTx(s, h, i) && |s.hosts| == 3 && reached <= s.hosts.Keys - {h}
    requires var tx := s.hosts[h].txs[i]; tx.phase.Voting? && tx.consumed == 1 && tx.arrived == [m] && tx.data.tid == t
    requires VoteOn(s.hosts[h], m, ACK) == ACK
    ensures var votes := Packets(Vouch(t, h), reached);
            Taken(s, Vote(h, i, ACK, reached),
                  Put(s, h, RecordVote(s.hosts[h], i, ACK, 2)).(net := s.net + votes, sent := s.sent + votes))
  {
    hide VoteOn, RecordVote, Packets;
  }

  /** The handler at h waits for the vote of g, which is on its way. */
  ghost predicate Expects(s: State, h: Name, a: Name, t: Tid, q: Request, g: Name, i: nat) {
    && HasTx(s, h, i) && |s.hosts| == 3 && Packet(h, Vouch(t, g)) in s.net
    && var host := s.hosts[h];
    && t in host.registry && host.registry[t] == i && host.listener.Idle?
    && host.txs[i] == HTx(a, t, q, None, 1, Some(ACK), WAIT)
  }

  /** The other bystander's vote arrives at h, which decides to commit. */
  lemma Agrees(r0: Run, h: Name, a: Name, t: Tid, q: Request, g: Name, i: nat) returns (r: Run)
    requires IsRun(r0) && Expects(Last(r0), h, a, t, q, g, i)
    ensures Quietly(r0, r)
    ensures var s := Last(r0);
            Last(r) == Put(s, h, SetTx(s.hosts[h], i, HTx(a, t, q, Some(g), 2, Some(ACK), Mirroring)))
                         .(net := s.net - {Packet(h, Vouch(t, g))})
  {
    var s, m := Last(r0), Vouch(t, g);
    var host, p := s.hosts[h], Packet(h, m);
    HearsVote(host, a, t, q, g, i);
    hide IsRun, Store, Decided, Mirrored, Taken, Quietly;
    var h0 := SetTx(host, i, HTx(a, t, q, Some(g), 1, Some(ACK), WAIT)).(listener := Busy(i, m));
    var h1 := SetTx(host, i, HTx(a, t, q, Some(g), 2, Some(ACK), WAIT));
    var s1 := Put(s, h, h0).(net := s.net - {p});
    var s2 := Put(s1, h, h1);
    PutPut(s, h, h0, h1);
    PutPut(s1, h, h1, Decided(h1, i));
    DeliverStep(s, p);
    var r1 := QuietStep(r0, Deliver(p), s1);
    QuietFacts(r0, r1);
    RendezvousStep(s1, h, i, m);
    var r2 := QuietStep(r1, Rendezvous(h), s2);
    QuietFacts(r1, r2);
    DecideStep(s2, h, i);
    r := QuietStep(r2, Decide(h, i), Put(s2, h, Decided(h1, i)));
    Quiet2(r0, r1, r2);
    Quiet2(r0, r2, r);
  }

  /** ... and mirrors. */
  lemma Commits(r0: Run, h: Name, a: Name, t: Tid, q: Request, g: Name, i: nat) returns (r: Run)
    requires IsRun(r0) && Expects(Last(r0), h, a, t, q, g, i)
    ensures Prolongs(r0, r)
    ensures forall z :: Mirrored(r, z) == Mirrored(r0, z) + if z == h then [t] else []
    ensures var s := Last(r0);
            Last(r) == Put(s, h, SetTx(s.hosts[h], i, HTx(a, t, q, Some(g), 2, Some(ACK), Returned(Success))))
                         .(net := s.net - {Packet(h, Vouch(t, g))})
  {
    var s := Last(r0);
    var r1 := Agrees(r0, h, a, t, q, g, i);
    QuietFacts(r0, r1);
    hide IsRun, Mirrored, Taken, Quietly, Prolongs;
    var h2 := SetTx(s.hosts[h], i, HTx(a, t, q, Some(g), 2, Some(ACK), Mirroring));
    var h3 := SetTx(s.hosts[h], i, HTx(a, t, q, Some(g), 2, Some(ACK), Returned(Success)));
    assert SetTx(h2, i, h2.txs[i].(phase := Returned(Success))) == h3;
    PutPut(s, h, h2, h3);
    MirrorStep(Last(r1), h, i);
    r := Step1(r1, MirrorReturns(h, i), Put(Last(r1), h, h3));
    Prolongs2(r0, r1, r);
  }

  // ---------------------------------------------------------------- moves of the issuer

  /** The Replicate call, with the votes that have arrived. */
  function CTx(a: Name, t: Tid, q: Request, from: seq<Name>, consumed: nat, phase: Phase): Tx {
    Tx(TxData(t, a, Some(q), seq(|from|, _ => ACK)), Replicator,
       seq(|from|, k requires 0 <= k < |from| => Vouch(t, from[k])), consumed, None, phase)
  }

  /** a issues a request that reaches both others. */
  lemma Asks(r0: Run, a: Name, t: Tid, q: Request) returns (r: Run)
    requires IsRun(r0) && a in Last(r0).hosts && |Last(r0).hosts| == 3
    requires AllFrom(Last(r0).hosts[a], a) && t !in Last(r0).started && t !in Last(r0).hosts[a].registry
    ensures Quietly(r0, r) && |r.steps| > |r0.steps| && r.steps[|r0.steps|] == Start(a, t, q)
    ensures var s := Last(r0); var others := s.hosts.Keys - {a};
            var packets := Packets(Asked(a, t, q), others);
            Last(r) == Put(s, a, WithTx(s.hosts[a], t, CTx(a, t, q, [], 0, WAIT)))
                         .(net := s.net + packets, sent := s.sent + packets, started := s.started[t := Issued(a, q)])
  {
    var s, others := Last(r0), Last(r0).hosts.Keys - {a};
    var host, i := s.hosts[a], |s.hosts[a].txs|;
    var packets := Packets(Asked(a, t, q), others);
    var h0, h1 := WithTx(host, t, CTx(a, t, q, [], 0, Checking)), WithTx(host, t, CTx(a, t, q, [], 0, Phase.Sending));
    var h2 := WithTx(host, t, CTx(a, t, q, [], 0, WAIT));
    AskMoves(host, a, t, q);
    hide IsRun, RegisterOwn, Checked, Packets, Mirrored, Taken, Quietly;
    assert SetTx(h1, i, h1.txs[i].(phase := WAIT)) == h2;
    var s1 := Put(s, a, h0).(started := s.started[t := Issued(a, q)]);
    var s2 := Put(s1, a, h1);
    PutPut(s, a, h0, h1);
    PutPut(s1, a, h1, h2);
    StartStep(s, a, t, q);
    var r1 := QuietStep(r0, Start(a, t, q), s1);
    QuietFacts(r0, r1);
    CheckStep(s1, a, i);
    var r2 := QuietStep(r1, Check(a, i), s2);
    QuietFacts(r1, r2);
    BroadcastStep(s2, a, i, t, q, others);
    r := QuietStep(r2, Broadcast(a, i, Tried({}), others),
                   Put(s2, a, h2).(net := s2.net + packets, sent := s2.sent + packets));
    Quiet2(r1, r2, r);
    Quiet2(r0, r1, r);
    QuietFacts(r1, r);
    LaterStep(r1, r, |r0.steps|);
  }

  lemma AskMoves(host: Host, a: Name, t: Tid, q: Request)
    requires AllFrom(host, a) && t !in host.registry
    ensures RegisterOwn(host, Message(t, a, Req(q))) == WithTx(host, t, CTx(a, t, q, [], 0, Checking))
    ensures Checked(a, WithTx(host, t, CTx(a, t, q, [], 0, Checking)), |host.txs|)
            == WithTx(host, t, CTx(a, t, q, [], 0, Phase.Sending))
  {
    var h0 := WithTx(host, t, CTx(a, t, q, [], 0, Checking));
    var tx := h0.txs[|host.txs|];
    assert tx.data.responses == [] && tx.arrived == [];
    assert AllFrom(h0, a);
    NoConflict(h0, a, Message(t, a, Req(q)));
    hide InConflict, ViewOf, AllFrom;
    assert SetTx(h0, |host.txs|, tx.(phase := Phase.Sending)) == WithTx(host, t, CTx(a, t, q, [], 0, Phase.Sending));
  }

  lemma BroadcastStep(s: State, a: Name, i: nat, t: Tid, q: Request, others: set<Name>)
    requires HasTx(s, a, i) && |s.hosts| == 3 && others <= s.hosts.Keys - {a}
    requires s.hosts[a].txs[i].phase.Sending? && s.hosts[a].txs[i].data == TxData(t, a, Some(q), [])
    ensures var packets := Packets(Asked(a, t, q), others);
            Taken(s, Broadcast(a, i, Tried({}), others),
                  Put(s, a, SetTx(s.hosts[a], i, s.hosts[a].txs[i].(phase := WAIT)))
                    .(net := s.net + packets, sent := s.sent + packets))
  {
    hide Packets;
  }

  /** A vote arrives at the issuer. */
  lemma Collects(r0: Run, a: Name, t: Tid, q: Request, from: seq<Name>, g: Name, i: nat) returns (r: Run)
    requires IsRun(r0) && a in Last(r0).hosts && |Last(r0).hosts| == 3 && |from| < 2
    requires var host := Last(r0).hosts[a];
             && t in host.registry && host.registry[t] == i && i < |host.txs| && host.listener.Idle?
             && host.txs[i] == CTx(a, t, q, from, |from|, WAIT)
    requires Packet(a, Vouch(t, g)) in Last(r0).net
    ensures Quietly(r0, r)
    ensures var s := Last(r0);
            Last(r) == Put(s, a, SetTx(s.hosts[a], i, CTx(a, t, q, from + [g], |from| + 1, WAIT)))
                         .(net := s.net - {Packet(a, Vouch(t, g))})
  {
    var s, m := Last(r0), Vouch(t, g);
    var host, p := s.hosts[a], Packet(a, m);
    var h0 := SetTx(host, i, CTx(a, t, q, from + [g], |from|, WAIT)).(listener := Busy(i, m));
    var h1 := SetTx(host, i, CTx(a, t, q, from + [g], |from| + 1, WAIT));
    assert Store(host, m, 2) == h0 by {
      assert host.txs[i].data.responses + [ACK] == h0.txs[i].data.responses;
      assert host.txs[i].arrived + [m] == h0.txs[i].arrived;
    }
    assert SetTx(h0, i, Take(h0.txs[i], m)).(listener := Idle) == h1;
    hide IsRun, Store, Mirrored, Taken, Quietly;
    var s1 := Put(s, a, h0).(net := s.net - {p});
    PutPut(s, a, h0, h1);
    DeliverStep(s, p);
    var r1 := QuietStep(r0, Deliver(p), s1);
    QuietFacts(r0, r1);
    RendezvousStep(s1, a, i, m);
    r := QuietStep(r1, Rendezvous(a), Put(s1, a, h1));
    Quiet2(r0, r1, r);
  }

  /** With both votes in, the call succeeds and deletes its entry. */
  lemma Succeeds(r0: Run, a: Name, t: Tid, q: Request, from: seq<Name>, i: nat) returns (r: Run)
    requires IsRun(r0) && a in Last(r0).hosts && |Last(r0).hosts| == 3 && |from| == 2
    requires HasTx(Last(r0), a, i) && Last(r0).hosts[a].txs[i] == CTx(a, t, q, from, 2, WAIT)
    ensures Quietly(r0, r)
    ensures var s := Last(r0);
            Last(r) == Put(s, a, SetTx(s.hosts[a], i, CTx(a, t, q, from, 2, Deleted(Success)))
                                   .(registry := s.hosts[a].registry - {t}))
  {
    var s, host := Last(r0), Last(r0).hosts[a];
    var h0 := SetTx(host, i, CTx(a, t, q, from, 2, Returned(Success)));
    var h1 := SetTx(host, i, CTx(a, t, q, from, 2, Deleted(Success))).(registry := host.registry - {t});
    assert Decided(host, i) == h0 by {
      assert !HasNack(host.txs[i].data.responses);
    }
    hide IsRun, Decided, Mirrored;
    r := QuietStep(r0, Decide(a, i), Put(s, a, h0));
    assert SetTx(h0, i, h0.txs[i].(phase := Deleted(Success))).(registry := h0.registry - {t}) == h1;
    r := QuietStep(r, Step.Delete(a, i), Put(Put(s, a, h0), a, h1));
    assert Put(Put(s, a, h0), a, h1) == Put(s, a, h1);
  }

  // ---------------------------------------------------------------- three hosts

  /** The cast: who issues, who watches, and the two requests. */
  datatype Play = Play(a: Name, x: Name, y: Name, t: Tid, q: Request, u: Tid, p: Request, clock: Uint64)

  predicate Cast(c: Play) {
    c.a != c.x && c.a != c.y && c.x != c.y && c.t != c.u
  }

  function Swap(c: Play): Play { c.(x := c.y, y := c.x) }

  function Trio(c: Play, ha: Host, hx: Host, hy: Host): map<Name, Host> {
    map[c.a := ha, c.x := hx, c.y := hy]
  }

  lemma TrioFacts(c: Play, ha: Host, hx: Host, hy: Host)
    requires Cast(c)
    ensures var m := Trio(c, ha, hx, hy);
            && m.Keys == {c.a, c.x, c.y} && |m| == 3 && m[c.a] == ha && m[c.x] == hx && m[c.y] == hy
            && m == Trio(Swap(c), ha, hy, hx)
    ensures forall h :: Trio(c, ha, hx, hy)[c.a := h] == Trio(c, h, hx, hy)
    ensures forall h :: Trio(c, ha, hx, hy)[c.x := h] == Trio(c, ha, h, hy)
  {
    TrioKeys(c, ha, hx, hy);
    forall h {
      TrioUpdates(c, ha, hx, hy, h);
    }
    hide Trio;
  }

  lemma TrioKeys(c: Play, ha: Host, hx: Host, hy: Host)
    requires Cast(c)
    ensures var m := Trio(c, ha, hx, hy);
            && m.Keys == {c.a, c.x, c.y} && |m| == 3 && m[c.a] == ha && m[c.x] == hx && m[c.y] == hy
            && m == Trio(Swap(c), ha, hy, hx)
  {
    var m := Trio(c, ha, hx, hy);
    assert m.Keys == {c.a, c.x, c.y};
    assert |m| == |m.Keys|;
  }

  lemma TrioUpdates(c: Play, ha: Host, hx: Host, hy: Host, h: Host)
    requires Cast(c)
    ensures Trio(c, ha, hx, hy)[c.a := h] == Trio(c, h, hx, hy)
    ensures Trio(c, ha, hx, hy)[c.x := h] == Trio(c, ha, h, hy)
  {
  }

  function Joined(host: Host, c: Play, t: Tid, q: Request): Host {
    WithTx(host, t, HTx(c.a, t, q, None, 1, Some(ACK), WAIT)).(votes := host.votes[t := ACK])
  }

  function Done(host: Host, c: Play, t: Tid, q: Request, g: Name, i: nat): Host
    requires i < |host.txs|
  {
    SetTx(host, i, HTx(c.a, t, q, Some(g), 2, Some(ACK), Returned(Success)))
  }

  lemma InPackets(m: Message, reached: set<Name>)
    ensures forall z :: z in reached ==> Packet(z, m) in Packets(m, reached)
  {
  }

  /** x takes part in the transaction; its vote reaches `reached`. */
  lemma XTakesPart(r0: Run, c: Play, ha: Host, hx: Host, hy: Host, t: Tid, q: Request, reached: set<Name>)
    returns (r: Run)
    requires Cast(c) && IsRun(r0) && Last(r0).hosts == Trio(c, ha, hx, hy) && reached <= {c.a, c.y}
    requires AllFrom(hx, c.a) && t !in hx.registry && Packet(c.x, Asked(c.a, t, q)) in Last(r0).net
    ensures Quietly(r0, r) && Last(r).started == Last(r0).started
    ensures Last(r).hosts == Trio(c, ha, Joined(hx, c, t, q), hy)
    ensures forall p :: p in Last(r0).net && p != Packet(c.x, Asked(c.a, t, q)) ==> p in Last(r).net
    ensures forall z :: z in reached ==> Packet(z, Vouch(t, c.x)) in Last(r).net
  {
    TrioFacts(c, ha, hx, hy);
    InPackets(Vouch(t, c.x), reached);
    hide IsRun, Trio, Packets, AllFrom, Quietly, WithTx;
    r := TakesPart(r0, c.x, c.a, t, q, reached);
  }

  /** x gets the vote of y, commits and mirrors. */
  lemma XCommits(r0: Run, c: Play, ha: Host, hx: Host, hy: Host, t: Tid, q: Request, i: nat) returns (r: Run)
    requires Cast(c) && IsRun(r0) && Last(r0).hosts == Trio(c, ha, hx, hy)
    requires t in hx.registry && hx.registry[t] == i && i < |hx.txs| && hx.listener.Idle?
    requires hx.txs[i] == HTx(c.a, t, q, None, 1, Some(ACK), WAIT) && Packet(c.x, Vouch(t, c.y)) in Last(r0).net
    ensures Prolongs(r0, r) && Last(r).started == Last(r0).started
    ensures forall z :: Mirrored(r, z) == Mirrored(r0, z) + if z == c.x then [t] else []
    ensures Last(r).hosts == Trio(c, ha, Done(hx, c, t, q, c.y, i), hy)
    ensures forall p :: p in Last(r0).net && p != Packet(c.x, Vouch(t, c.y)) ==> p in Last(r).net
  {
    TrioFacts(c, ha, hx, hy);
    assert Expects(Last(r0), c.x, c.a, t, q, c.y, i);
    hide IsRun, Trio, Prolongs, Mirrored, HTx, SetTx, Expects;
    r := Commits(r0, c.x, c.a, t, q, c.y, i);
  }

  lemma AAsks(r0: Run, c: Play, ha: Host, hx: Host, hy: Host, t: Tid, q: Request) returns (r: Run)
    requires Cast(c) && IsRun(r0) && Last(r0).hosts == Trio(c, ha, hx, hy)
    requires AllFrom(ha, c.a) && t !in Last(r0).started && t !in ha.registry
    ensures Quietly(r0, r) && |r.steps| > |r0.steps| && r.steps[|r0.steps|] == Start(c.a, t, q)
    ensures Last(r).hosts == Trio(c, WithTx(ha, t, CTx(c.a, t, q, [], 0, WAIT)), hx, hy)
    ensures forall p :: p in Last(r0).net ==> p in Last(r).net
    ensures Packet(c.x, Asked(c.a, t, q)) in Last(r).net && Packet(c.y, Asked(c.a, t, q)) in Last(r).net
    ensures Last(r).started == Last(r0).started[t := Issued(c.a, q)]
  {
    TrioFacts(c, ha, hx, hy);
    assert Last(r0).hosts.Keys - {c.a} == {c.x, c.y};
    InPackets(Asked(c.a, t, q), {c.x, c.y});
    hide IsRun, Trio, Packets, AllFrom, Quietly, WithTx, CTx;
    r := Asks(r0, c.a, t, q);
  }

  function Asker(c: Play, from: seq<Name>): Host {
    Host(map[c.t := 0], [CTx(c.a, c.t, c.q, from, |from|, WAIT)], Idle, c.clock, map[])
  }

  /** One vote reaches the issuer. */
  lemma ACollects(r0: Run, c: Play, from: seq<Name>, g: Name, hx: Host, hy: Host) returns (r: Run)
    requires Cast(c) && IsRun(r0) && |from| < 2 && Last(r0).hosts == Trio(c, Asker(c, from), hx, hy)
    requires Packet(c.a, Vouch(c.t, g)) in Last(r0).net
    ensures Quietly(r0, r) && Last(r).started == Last(r0).started
    ensures Last(r).hosts == Trio(c, Asker(c, from + [g]), hx, hy)
    ensures Last(r).net == Last(r0).net - {Packet(c.a, Vouch(c.t, g))}
  {
    TrioFacts(c, Asker(c, from), hx, hy);
    hide IsRun, Trio, CTx, Quietly;
    assert SetTx(Asker(c, from), 0, CTx(c.a, c.t, c.q, from + [g], |from| + 1, WAIT)) == Asker(c, from + [g]);
    r := Collects(r0, c.a, c.t, c.q, from, g, 0);
  }

  /** With both votes in, its call succeeds. */
  lemma ASucceeds(r0: Run, c: Play, hx: Host, hy: Host) returns (r: Run)
    requires Cast(c) && IsRun(r0) && Last(r0).hosts == Trio(c, Asker(c, [c.x, c.y]), hx, hy)
    ensures Quietly(r0, r) && Last(r).started == Last(r0).started && Last(r).net == Last(r0).net
    ensures Last(r).hosts == Trio(c, Over(c), hx, hy)
  {
    TrioFacts(c, Asker(c, [c.x, c.y]), hx, hy);
    hide IsRun, Trio, CTx, Quietly;
    assert map[c.t := 0] - {c.t} == map[];
    assert SetTx(Asker(c, [c.x, c.y]), 0, CTx(c.a, c.t, c.q, [c.x, c.y], 2, Deleted(Success))).(registry := map[])
        == Over(c);
    r := Succeeds(r0, c.a, c.t, c.q, [c.x, c.y], 0);
  }

  // ---------------------------------------------------------------- the whole run

  lemma Begin(c: Play) returns (r: Run)
    requires Cast(c)
    ensures IsRun(r) && r.steps == [] && forall h :: Mirrored(r, h) == []
    ensures var n := NewHost(c.clock); Last(r).hosts == Trio(c, n, n, n)
    ensures Last(r).net == {} && Last(r).started == map[]
  {
    var n := NewHost(c.clock);
    TrioFacts(c, n, n, n);
    r := Run([State(Trio(c, n, n, n), {}, {}, map[])], []);
  }

  /** A bystander that has voted on the first request, and one that has mirrored it. */
  function Voted(c: Play): Host {
    Host(map[c.t := 0], [HTx(c.a, c.t, c.q, None, 1, Some(ACK), WAIT)], Idle, c.clock, map[c.t := ACK])
  }

  function First(c: Play): Host {
    Host(map[c.t := 0], [HTx(c.a, c.t, c.q, Some(c.y), 2, Some(ACK), Returned(Success))],
         Idle, c.clock, map[c.t := ACK])
  }

  function Over(c: Play): Host {
    Host(map[], [CTx(c.a, c.t, c.q, [c.x, c.y], 2, Deleted(Success))], Idle, c.clock, map[])
  }

  lemma FirstMoves(c: Play)
    requires Cast(c)
    ensures AllFrom(NewHost(c.clock), c.a) && Joined(NewHost(c.clock), c, c.t, c.q) == Voted(c)
    ensures WithTx(NewHost(c.clock), c.t, CTx(c.a, c.t, c.q, [], 0, WAIT))
            == Asker(c, [])
    ensures Voted(c).txs[0] == HTx(c.a, c.t, c.q, None, 1, Some(ACK), WAIT)
    ensures Done(Voted(c), c, c.t, c.q, c.y, 0) == First(c)
    ensures Voted(Swap(c)) == Voted(c)
  {
  }

  /** The first request reaches both bystanders and both vote for it. */
  lemma FirstScene(c: Play) returns (r: Run)
    requires Cast(c)
    ensures IsRun(r) && Last(r).hosts == Trio(c, Asker(c, []), Voted(c), Voted(c))
    ensures Packet(c.a, Vouch(c.t, c.x)) in Last(r).net && Packet(c.a, Vouch(c.t, c.y)) in Last(r).net
    ensures Packet(c.x, Vouch(c.t, c.y)) in Last(r).net && Packet(c.y, Vouch(c.t, c.x)) in Last(r).net
    ensures Last(r).started == map[c.t := Issued(c.a, c.q)] && forall h :: Mirrored(r, h) == []
  {
    var n, t, q, ha := NewHost(c.clock), c.t, c.q, Asker(c, []);
    FirstMoves(c);
    FirstMoves(Swap(c));
    hide IsRun, Trio, CTx, HTx, Mirrored, AllFrom, WithTx, Joined, Done, Quietly, Voted, Asker;
    var r0 := Begin(c);
    var r1 := AAsks(r0, c, n, n, n, t, q);
    QuietFacts(r0, r1);
    var r2 := XTakesPart(r1, c, ha, n, n, t, q, {c.a, c.y});
    QuietFacts(r1, r2);
    assert Packet(c.y, Asked(c.a, t, q)) in Last(r2).net;
    assert Packet(c.a, Vouch(t, c.x)) in Last(r2).net && Packet(c.y, Vouch(t, c.x)) in Last(r2).net;
    TrioFacts(c, ha, Voted(c), n);
    r := XTakesPart(r2, Swap(c), ha, n, Voted(c), t, q, {c.a, c.x});
    QuietFacts(r2, r);
    TrioFacts(c, ha, Voted(c), Voted(c));
  }

  /** Its call succeeds, x mirrors it, y waits for the vote of x. */
  lemma FirstAct(c: Play) returns (r: Run)
    requires Cast(c)
    ensures IsRun(r) && Last(r).hosts == Trio(c, Over(c), First(c), Voted(c))
    ensures Packet(c.y, Vouch(c.t, c.x)) in Last(r).net && Last(r).started == map[c.t := Issued(c.a, c.q)]
    ensures forall h :: Mirrored(r, h) == if h == c.x then [c.t] else []
  {
    FirstMoves(c);
    assert [] + [c.x] == [c.x] && [c.x] + [c.y] == [c.x, c.y];
    assert Voted(c).registry == map[c.t := 0] && Voted(c).listener == Idle && |Voted(c).txs| == 1;
    hide IsRun, Trio, CTx, HTx, Mirrored, Done, Quietly, Prolongs, Voted, Asker, Over, First;
    var r0 := FirstScene(c);
    var r1 := ACollects(r0, c, [], c.x, Voted(c), Voted(c));
    QuietFacts(r0, r1);
    var r2 := ACollects(r1, c, [c.x], c.y, Voted(c), Voted(c));
    QuietFacts(r1, r2);
    var r3 := ASucceeds(r2, c, Voted(c), Voted(c));
    QuietFacts(r2, r3);
    r := XCommits(r3, c, Over(c), Voted(c), Voted(c), c.t, c.q, 0);
    AreRuns(r3, r);
  }

  function Both(c: Play, first: Tx, second: Tx): Host {
    Host(map[c.t := 0, c.u := 1], [first, second], Idle, c.clock, map[c.t := ACK, c.u := ACK])
  }

  lemma SecondMoves(c: Play, first: Tx)
    requires Cast(c) && first.data.initiatorName == c.a
    ensures var host := Host(map[c.t := 0], [first], Idle, c.clock, map[c.t := ACK]);
            && AllFrom(host, c.a) && c.u !in host.registry
            && Joined(host, c, c.u, c.p) == Both(c, first, HTx(c.a, c.u, c.p, None, 1, Some(ACK), WAIT))
    ensures forall second, g ::
              Done(Both(c, first, second), c, c.u, c.p, g, 1)
              == Both(c, first, HTx(c.a, c.u, c.p, Some(g), 2, Some(ACK), Returned(Success)))
  {
  }

  lemma OverMoves(c: Play)
    ensures AllFrom(Over(c), c.a) && |Over(c).txs| == 1
    ensures var tx := Over(c).txs[0]; tx.data.tid == c.t && tx.owner.Replicator? && EndedWith(tx, Success)
  {
  }

  function Joining(c: Play): Tx { HTx(c.a, c.u, c.p, None, 1, Some(ACK), WAIT) }

  function Second(c: Play, g: Name): Tx { HTx(c.a, c.u, c.p, Some(g), 2, Some(ACK), Returned(Success)) }

  /** The issuer once its second request is out. */
  function Asking(c: Play): Host { WithTx(Over(c), c.u, CTx(c.a, c.u, c.p, [], 0, WAIT)) }

  /** The second request reaches both bystanders and both vote for it. */
  lemma SecondScene(c: Play, r0: Run) returns (r: Run)
    requires Cast(c) && IsRun(r0) && Last(r0).hosts == Trio(c, Over(c), First(c), Voted(c))
    requires Packet(c.y, Vouch(c.t, c.x)) in Last(r0).net && Last(r0).started == map[c.t := Issued(c.a, c.q)]
    ensures Quietly(r0, r) && |r.steps| > |r0.steps| && r.steps[|r0.steps|] == Start(c.a, c.u, c.p)
    ensures Last(r).hosts ==
            Trio(c, Asking(c), Both(c, First(c).txs[0], Joining(c)), Both(c, Voted(c).txs[0], Joining(c)))
    ensures Packet(c.y, Vouch(c.t, c.x)) in Last(r).net
    ensures Packet(c.x, Vouch(c.u, c.y)) in Last(r).net && Packet(c.y, Vouch(c.u, c.x)) in Last(r).net
    ensures Last(r).started == map[c.t := Issued(c.a, c.q), c.u := Issued(c.a, c.p)]
  {
    var u, p, ha := c.u, c.p, Asking(c);
    var bx, bz := Both(c, First(c).txs[0], Joining(c)), Both(c, Voted(c).txs[0], Joining(c));
    SecondMoves(c, First(c).txs[0]);
    SecondMoves(Swap(c), Voted(c).txs[0]);
    OverMoves(c);
    assert Both(Swap(c), Voted(c).txs[0], Joining(c)) == bz;
    hide IsRun, Trio, CTx, HTx, Mirrored, AllFrom, WithTx, Joined, Done, Quietly, Prolongs;
    hide Voted, Over, First, Asking, Both, Joining;
    var r1 := AAsks(r0, c, Over(c), First(c), Voted(c), u, p);
    QuietFacts(r0, r1);
    var r2 := XTakesPart(r1, c, ha, First(c), Voted(c), u, p, {c.y});
    QuietFacts(r1, r2);
    assert Packet(c.y, Asked(c.a, u, p)) in Last(r2).net && Packet(c.y, Vouch(u, c.x)) in Last(r2).net;
    TrioFacts(c, ha, bx, Voted(c));
    r := XTakesPart(r2, Swap(c), ha, Voted(c), bx, u, p, {c.x});
    QuietFacts(r2, r);
    Quiet2(r1, r2, r);
    Quiet2(r0, r1, r);
    TrioFacts(c, ha, bx, bz);
    Prolongs2(r1, r2, r);
    LaterStep(r1, r, |r0.steps|);
  }

  lemma BothFacts(c: Play, first: Tx, second: Tx)
    requires Cast(c)
    ensures var host := Both(c, first, second);
            && c.t in host.registry && host.registry[c.t] == 0 && c.u in host.registry && host.registry[c.u] == 1
            && |host.txs| == 2 && host.txs[0] == first && host.txs[1] == second && host.listener == Idle
    ensures forall g :: Done(Both(c, first, second), c, c.u, c.p, g, 1) == Both(c, first, Second(c, g))
    ensures Both(Swap(c), first, second) == Both(c, first, second)
  {
  }

  /** x mirrors the second request after the first, y before it. */
  lemma SecondAct(c: Play, r0: Run) returns (r: Run)
    requires Cast(c) && IsRun(r0) && Last(r0).hosts == Trio(c, Over(c), First(c), Voted(c))
    requires Packet(c.y, Vouch(c.t, c.x)) in Last(r0).net && Last(r0).started == map[c.t := Issued(c.a, c.q)]
    ensures Prolongs(r0, r) && |r0.steps| < |r.steps| && r.steps[|r0.steps|] == Start(c.a, c.u, c.p)
    ensures Mirrored(r, c.x) == Mirrored(r0, c.x) + [c.u]
    ensures Mirrored(r, c.y) == Mirrored(r0, c.y) + [c.u] + [c.t]
    ensures Last(r).started == map[c.t := Issued(c.a, c.q), c.u := Issued(c.a, c.p)]
  {
    var d, ha, fx, fy := Swap(c), Asking(c), First(c).txs[0], Voted(c).txs[0];
    assert fy == HTx(c.a, c.t, c.q, None, 1, Some(ACK), WAIT);
    BothFacts(c, fx, Joining(c));
    BothFacts(c, fy, Joining(c));
    BothFacts(c, fy, Second(c, c.x));
    hide IsRun, Trio, CTx, HTx, Mirrored, Done, Quietly, Prolongs, Voted, Over, First, Asking, Both, Second, Joining;
    var r1 := SecondScene(c, r0);
    QuietFacts(r0, r1);
    var r2 := XCommits(r1, c, ha, Both(c, fx, Joining(c)), Both(c, fy, Joining(c)), c.u, c.p, 1);
    AreRuns(r1, r2);
    var bx := Both(c, fx, Second(c, c.y));
    TrioFacts(c, ha, bx, Both(c, fy, Joining(c)));
    var r3 := XCommits(r2, d, ha, Both(c, fy, Joining(c)), bx, c.u, c.p, 1);
    AreRuns(r2, r3);
    r := XCommits(r3, d, ha, Both(c, fy, Second(c, c.x)), bx, c.t, c.q, 0);
    Prolongs2(r2, r3, r);
    Prolongs2(r1, r2, r);
    Prolongs2(r0, r1, r);
    LaterStep(r1, r, |r0.steps|);
  }

  lemma LaterStep(r: Run, r': Run, k: nat)
    requires Prolongs(r, r') && k < |r.steps|
    ensures k < |r'.steps| && r'.steps[k] == r.steps[k]
  {
    hide IsRun;
  }

  /** Opposite orders: for any peer and any two requests it issues one after the other,
      the second when the call for the first has succeeded, there is a run in which
      two others mirror both, one in the order of issue and one in the reverse. */
  lemma OppositeOrders(c: Play) returns (r: Run, k: nat)
    requires Cast(c)
    ensures IsRun(r) && k < |r.steps| && r.steps[k] == Start(c.a, c.u, c.p)
    ensures HasTx(r.states[k], c.a, 0) && r.states[k].hosts[c.a].txs[0].data.tid == c.t
    ensures r.states[k].hosts[c.a].txs[0].owner.Replicator? && EndedWith(r.states[k].hosts[c.a].txs[0], Success)
    ensures MirroredTids(r, |r.steps|, c.x) == [c.t, c.u] && MirroredTids(r, |r.steps|, c.y) == [c.u, c.t]
    ensures MirroredRequests(r, |r.steps|, c.x) == [c.q, c.p] && MirroredRequests(r, |r.steps|, c.y) == [c.p, c.q]
  {
    OverMoves(c);
    hide IsRun, MirroredTids, MirroredRequests, HTx, CTx, Trio, Over, First, Voted;
    var r0 := FirstAct(c);
    TrioFacts(c, Over(c), First(c), Voted(c));
    r := SecondAct(c, r0);
    k := |r0.steps|;
    RunLength(r0);
    RunLength(r);
    assert r.states[k] == Last(r0);
    assert [c.t] + [c.u] == [c.t, c.u] && [] + [c.u] + [c.t] == [c.u, c.t];
    MirroredAsIssued(r, |r.steps|, c.x, |r.steps|);
    MirroredAsIssued(r, |r.steps|, c.y, |r.steps|);
  }

  /** So replicas diverge: if the two requests are writes to one path that leave
      different trees, the two bystanders end with different trees. */
  lemma ReplicasDiverge(c: Play, umask: bv32, tree: M.Tree) returns (r: Run)
    requires Cast(c) && c.q.kind.WRITE? && c.p.kind.WRITE?
    requires c.q.metadata.relativePath == c.p.metadata.relativePath
    requires M.Apply(umask, tree, c.q).tree != M.Apply(umask, tree, c.p).tree
    ensures IsRun(r)
    ensures var n := |r.steps|;
            && (forall t :: t in MirroredTids(r, n, c.x) <==> t in MirroredTids(r, n, c.y))
            && (forall q :: q in MirroredRequests(r, n, c.x) || q in MirroredRequests(r, n, c.y) ==> M.LinkFree(q))
            && ApplyAll(umask, tree, MirroredRequests(r, n, c.x)) != ApplyAll(umask, tree, MirroredRequests(r, n, c.y))
  {
    var k;
    r, k := OppositeOrders(c);
    hide IsRun, MirroredTids, MirroredRequests;
    TwoWrites(umask, tree, c.q, c.p);
    TwoWrites(umask, tree, c.p, c.q);
  }

  lemma TwoWrites(umask: bv32, tree: M.Tree, q: Request, p: Request)
    requires q.kind.WRITE? && p.kind.WRITE? && q.metadata.relativePath == p.metadata.relativePath
    ensures ApplyAll(umask, tree, [q, p]) == M.Apply(umask, tree, p).tree
  {
    var path := M.Components(q.metadata.relativePath);
    Effects.LastWriteWins(tree, path, q.metadata.writeOffset, q.content, p.metadata.writeOffset, p.content);
    hide M.Write, M.Components;
    TwoApplied(umask, tree, q, p);
  }

  /** For two writes to one path the order matters exactly when they leave different
      trees on their own. */
  lemma WriteOrders(umask: bv32, tree: M.Tree, q: Request, p: Request)
    requires q.kind.WRITE? && p.kind.WRITE? && q.metadata.relativePath == p.metadata.relativePath
    ensures ApplyAll(umask, tree, [q, p]) == ApplyAll(umask, tree, [p, q]) <==>
            M.Apply(umask, tree, q).tree == M.Apply(umask, tree, p).tree
  {
    hide M.Apply;
    TwoWrites(umask, tree, q, p);
    TwoWrites(umask, tree, p, q);
  }

  /** Successful writes of different data at one offset do. */
  lemma DifferentData(umask: bv32, tree: M.Tree, q: Request, p: Request)
    requires q.kind.WRITE? && p.kind.WRITE? && q.metadata.relativePath == p.metadata.relativePath
    requires q.metadata.writeOffset == p.metadata.writeOffset && q.content != p.content
    requires M.Apply(umask, tree, q).ok && M.Apply(umask, tree, p).ok
    ensures M.Apply(umask, tree, q).tree != M.Apply(umask, tree, p).tree
  {
    var path, off := M.Components(q.metadata.relativePath), q.metadata.writeOffset;
    Effects.WriteReadsBack(tree, path, off, q.content);
    Effects.WriteReadsBack(tree, path, off, p.content);
    hide M.Write, M.Components;
    if M.Apply(umask, tree, q).tree == M.Apply(umask, tree, p).tree {
      var content := M.Write(tree, path, off, q.content).tree[path].content;
      assert |q.content| == |p.content|;
      forall i | 0 <= i < |q.content|
        ensures q.content[i] == p.content[i]
      {
        assert content[off + i] == q.content[i] && content[off + i] == p.content[i];
      }
    }
  }

  lemma TwoApplied(umask: bv32, tree: M.Tree, q: Request, p: Request)
    requires M.LinkFree(q) && M.LinkFree(p)
    ensures ApplyAll(umask, tree, [q, p]) == M.Apply(umask, M.Apply(umask, tree, q).tree, p).tree
  {
    hide M.Apply;
    var first := M.Apply(umask, tree, q).tree;
    assert [q, p][1..] == [p] && [p][1..] == [];
    assert ApplyAll(umask, tree, [q, p]) == ApplyAll(umask, first, [p]);
    assert ApplyAll(umask, first, [p]) == ApplyAll(umask, M.Apply(umask, first, p).tree, []);
  }

  /** For a write and a mode change of one path the order matters exactly when the
      write creates the file and the mode is not empty. */
  lemma WriteSetattrOrders(umask: bv32, tree: M.Tree, q: Request, p: Request)
    requires q.kind.WRITE? && p.kind.SETATTR? && q.metadata.relativePath == p.metadata.relativePath
    ensures var path := M.Components(q.metadata.relativePath);
            ApplyAll(umask, tree, [q, p]) == ApplyAll(umask, tree, [p, q]) <==>
            path in tree || !M.HasParent(tree, path) || M.Perm(p.metadata.mode) == 0
  {
    var path := M.Components(q.metadata.relativePath);
    TwoApplied(umask, tree, q, p);
    TwoApplied(umask, tree, p, q);
    hide M.Write, M.Chmod, M.Components, M.HasParent, M.Perm;
    Effects.WriteAndChmod(tree, path, q.metadata.writeOffset, q.content, p.metadata.mode);
  }

  /** For a write and an unlink of one path it matters unless the write has nowhere to
      put a file or the path is a directory that is not empty. */
  lemma WriteUnlinkOrders(umask: bv32, tree: M.Tree, q: Request, p: Request)
    requires q.kind.WRITE? && p.kind.UNLINK? && q.metadata.relativePath == p.metadata.relativePath
    ensures var path := M.Components(q.metadata.relativePath);
            ApplyAll(umask, tree, [q, p]) == ApplyAll(umask, tree, [p, q]) <==>
            !M.HasParent(tree, path) || (M.IsDir(tree, path) && M.HasChildren(tree, path))
  {
    var path := M.Components(q.metadata.relativePath);
    TwoApplied(umask, tree, q, p);
    TwoApplied(umask, tree, p, q);
    hide M.Write, M.Remove, M.Components, M.HasParent, M.HasChildren;
    Effects.WriteAndRemove(tree, path, q.metadata.writeOffset, q.content);
  }
}
