/** Rounds that happen: any two hosts can contend for one path pair, round after
round. */
module Contest {
  import opened Names
  import opened Messages
  import opened Registry
  import opened Conflicts
  import opened Responses
  import opened Sets
  import opened Replication
  import opened ReplicationSafety
  import opened Scenarios
  import opened Exclusion
  import opened Fairness
  import opened Rounds

  // ---------------------------------------------------------------- a host in the duel

  /** A request and who issued it, under its transaction id. */
  datatype Side = Side(name: Name, tid: Tid, request: Request)

  predicate Rivals(x: Side, y: Side) {
    x.name != y.name && x.tid != y.tid && SamePaths(x.request, y.request)
  }

  function Of(x: Side): Issued { Issued(x.name, x.request) }

  function Ask(x: Side): Message { Asked(x.name, x.tid, x.request) }

  function Reply(x: Side, y: Side, v: Response): Message { Message(x.tid, y.name, Resp(v)) }

  /** The answer to y's request at the host of x. */
  function Verdict(x: Side, y: Side): Response {
    if Beats(Of(x), Of(y)) then NACK(ERR_TRANSACTION_CONFLICT) else ACK
  }

  const WAIT: Phase := Awaiting(1, false)

  /** Nothing is registered and every transaction so far is over. */
  predicate Resting(host: Host) {
    host.registry == map[] && host.listener.Idle? && forall i :: 0 <= i < |host.txs| ==> host.txs[i].phase.Deleted?
  }

  /** The host of x, at rest before, once its own call is registered. */
  function Calling(x: Side, host: Host, phase: Phase): Host {
    host.(registry := map[x.tid := |host.txs|], txs := host.txs + [OwnTx(x.name, x.tid, x.request, phase)])
  }

  /** Its own transaction; `answer` is what y's host said. */
  function Own(x: Side, y: Side, answer: Option<Response>, taken: nat, phase: Phase): Tx {
    Tx(TxData(x.tid, x.name, Some(x.request), if answer.Some? then [answer.value] else []), Replicator,
       if answer.Some? then [Reply(x, y, answer.value)] else [], taken, None, phase)
  }

  function Peer(y: Side, heard: nat, vote: Option<Response>, phase: Phase): Tx {
    PeerTx(y.name, y.tid, y.request, heard, vote, phase)
  }

  /** The host of x once y's request has arrived too. */
  function Duel(x: Side, y: Side, host: Host, own: Tx, peer: Tx, listener: Listener): Host {
    var n := |host.txs|;
    host.(registry := map[x.tid := n, y.tid := n + 1], txs := host.txs + [own, peer], listener := listener,
      votes := if peer.vote.Some? then host.votes[y.tid := peer.vote.value] else host.votes)
  }

  lemma CallingMoves(x: Side, host: Host)
    requires Resting(host)
    ensures RegisterOwn(host, Ask(x)) == Calling(x, host, Checking)
    ensures Checked(x.name, Calling(x, host, Checking), |host.txs|) == Calling(x, host, Phase.Sending)
    ensures SetTx(Calling(x, host, Phase.Sending), |host.txs|, OwnTx(x.name, x.tid, x.request, WAIT))
            == Calling(x, host, WAIT)
  {
    var h0 := Calling(x, host, Checking);
    assert h0.registry == host.registry[x.tid := |host.txs|];
    assert ViewOf(h0).Keys == {x.tid};
    assert !InConflict(ViewOf(h0), Ask(x)) by { BeatsIrreflexive(Of(x)); }
    hide InConflict, ViewOf;
  }

  lemma DuelHears(x: Side, y: Side, host: Host)
    requires Rivals(x, y) && Resting(host)
    ensures var i, own := |host.txs| + 1, Own(x, y, None, 0, WAIT);
            var d0 := Duel(x, y, host, own, Peer(y, 0, None, WAIT), Busy(i, Ask(y)));
            var d1 := Duel(x, y, host, own, Peer(y, 1, None, Voting), Idle);
            && Store(Calling(x, host, WAIT), Ask(y), 1) == d0
            && SetTx(d0, i, Take(d0.txs[i], Ask(y))).(listener := Idle) == d1
            && VoteOn(d1, Ask(y), ACK) == Verdict(x, y)
            && RecordVote(d1, i, Verdict(x, y), 1)
               == Duel(x, y, host, own, Peer(y, 1, Some(Verdict(x, y)), WAIT), Idle)
  {
    hide Beats, InConflict, ViewOf, Resting;
    var n := |host.txs|;
    var d1 := Duel(x, y, host, Own(x, y, None, 0, WAIT), Peer(y, 1, None, Voting), Idle);
    DuelConflict(d1, x, y, host);
    assert Calling(x, host, WAIT).registry[y.tid := n + 1] == map[x.tid := n, y.tid := n + 1];
    assert Calling(x, host, WAIT).txs + [Peer(y, 0, None, WAIT)]
        == host.txs + [Own(x, y, None, 0, WAIT), Peer(y, 0, None, WAIT)];
    RestingIdle(host);
  }

  lemma RestingIdle(host: Host)
    requires Resting(host)
    ensures host.listener == Idle
  {
  }

  lemma DuelConflict(d: Host, x: Side, y: Side, host: Host)
    requires Rivals(x, y) && d == Duel(x, y, host, Own(x, y, None, 0, WAIT), Peer(y, 1, None, Voting), Idle)
    ensures InConflict(ViewOf(d), Ask(y)) <==> Beats(Of(x), Of(y))
  {
    hide Beats;
    var v := ViewOf(d);
    assert v.Keys == {x.tid, y.tid};
    assert Refuses(v[x.tid], Ask(y)) <==> Beats(Of(x), Of(y));
    assert !Refuses(v[y.tid], Ask(y)) by { BeatsIrreflexive(Of(y)); }
  }

  lemma DuelEnds(x: Side, y: Side, host: Host, peer: Tx, w: Response)
    requires Rivals(x, y) && Resting(host)
    ensures var i, m := |host.txs|, Reply(x, y, w);
            var d2 := Duel(x, y, host, Own(x, y, None, 0, WAIT), peer, Idle);
            var d3 := Duel(x, y, host, Own(x, y, Some(w), 0, WAIT), peer, Busy(i, m));
            var d4 := Duel(x, y, host, Own(x, y, Some(w), 1, WAIT), peer, Idle);
            && Store(d2, m, 1) == d3
            && SetTx(d3, i, Take(d3.txs[i], m)).(listener := Idle) == d4
            && Decided(d4, i) == Duel(x, y, host, Own(x, y, Some(w), 1, Returned(Verdicts(w))), peer, Idle)
                                   .(clock := ClockAfter([w], host.clock))
  {
    hide ClockAfter, Resting;
    RestingIdle(host);
    var d2 := Duel(x, y, host, Own(x, y, None, 0, WAIT), peer, Idle);
    assert HasNack([w]) <==> w.NACK? by { assert w in [w]; }
    assert Absorb(d2.txs[|host.txs|].data, Reply(x, y, w)).responses == [w];
    assert d2.txs[|host.txs|].arrived + [Reply(x, y, w)] == [Reply(x, y, w)];
  }

  /** How a call ends on the one answer it gets. */
  function Verdicts(w: Response): Outcome { if w.NACK? then NotPermitted else Success }

  // ---------------------------------------------------------------- runs that contend

  /** From step `from` on the run contends. */
  ghost predicate Clean(r: Run, from: nat, c: Round, log: Log) {
    && |r.states| == |r.steps| + 1
    && forall k :: from <= k < |r.steps| ==> Contends(r.states[k], r.steps[k], c, log)
  }

  lemma Extend(r: Run, last: State, step: Step, s: State, from: nat, c: Round, log: Log) returns (r': Run)
    requires IsRun(r) && Clean(r, from, c, log) && r.states[|r.states| - 1] == last && Taken(last, step, s)
    requires Contends(last, step, c, log)
    ensures Prolongs(r, r') && Clean(r', from, c, log) && r'.states[|r'.states| - 1] == s
  {
    hide Taken, Initial, Contends;
    r' := Run(r.states + [s], r.steps + [step]);
    forall k | 0 <= k < |r'.steps|
      ensures Taken(r'.states[k], r'.steps[k], r'.states[k + 1])
      ensures from <= k ==> Contends(r'.states[k], r'.steps[k], c, log)
    {
      if k < |r.steps| {
        assert Taken(r.states[k], r.steps[k], r.states[k + 1]);
      }
    }
  }

  /** Most steps have nothing to contend about. */
  lemma Plain(r: Run, last: State, step: Step, s: State, from: nat, c: Round, log: Log) returns (r': Run)
    requires IsRun(r) && Clean(r, from, c, log) && r.states[|r.states| - 1] == last && Taken(last, step, s)
    requires !step.Check? && !step.Vote?
    ensures Prolongs(r, r') && Clean(r', from, c, log) && r'.states[|r'.states| - 1] == s
  {
    hide Taken, IsRun, Clean;
    r' := Extend(r, last, step, s, from, c, log);
  }

  function Contest(x: Side, y: Side): Round { Round(0, 0, map[x.name := x.tid, y.name := y.tid]) }

  lemma CheckContends(x: Side, y: Side, host: Host, hb: Host, net: set<Packet>, sent: set<Packet>, log: Log, end: Log)
    requires x.name != y.name && Resting(host)
    ensures Contends(Two(x.name, y.name, Calling(x, host, Checking), hb, net, sent, log),
                     Check(x.name, |host.txs|), Contest(x, y), end)
  {
    assert Contest(x, y).tids[x.name] == x.tid;
    assert forall u :: u in ViewOf(Calling(x, host, Checking)) ==> u == x.tid;
  }

  lemma VoteContends(x: Side, y: Side, d: Host, hb: Host, net: set<Packet>, sent: set<Packet>, log: Log, end: Log,
                     host: Host)
    requires Rivals(x, y) && d == Duel(x, y, host, Own(x, y, None, 0, WAIT), Peer(y, 1, None, Voting), Idle)
    ensures Contends(Two(x.name, y.name, d, hb, net, sent, log), Vote(x.name, |host.txs| + 1, ACK, {y.name}),
                     Contest(x, y), end)
  {
    assert Contest(x, y).tids[x.name] == x.tid && Contest(x, y).tids[y.name] == y.tid;
    assert d.txs[|host.txs|] == Own(x, y, None, 0, WAIT);
    assert Live(d, x.tid);
    assert forall u :: u in ViewOf(d) ==> u in d.registry;
    assert Two(x.name, y.name, d, hb, net, sent, log).hosts[x.name] == d;
  }

  lemma SameContest(x: Side, y: Side)
    requires x.name != y.name
    ensures Contest(x, y) == Contest(y, x)
  {
  }

  // ---------------------------------------------------------------- the acts of a round

  /** x issues its request and sends it to y. */
  lemma Issue(r0: Run, from: nat, x: Side, y: Side, host: Host, hb: Host,
              net: set<Packet>, sent: set<Packet>, log: Log, end: Log) returns (r: Run)
    requires x.name != y.name && x.tid !in log && Resting(host)
    requires IsRun(r0) && Clean(r0, from, Contest(x, y), end)
    requires r0.states[|r0.states| - 1] == Two(x.name, y.name, host, hb, net, sent, log)
    ensures Prolongs(r0, r) && Clean(r, from, Contest(x, y), end)
    ensures var p := Packet(y.name, Ask(x));
            r.states[|r.states| - 1] ==
            Two(x.name, y.name, Calling(x, host, WAIT), hb, net + {p}, sent + {p}, log[x.tid := Of(x)])
  {
    hide Taken, IsRun, Two, Contends, Clean, Resting, Prolongs;
    var a, b, c, n := x.name, y.name, Contest(x, y), |host.txs|;
    var p, log' := Packet(b, Ask(x)), log[x.tid := Of(x)];
    var h1, h2, h3 := Calling(x, host, Checking), Calling(x, host, Phase.Sending), Calling(x, host, WAIT);
    CallingMoves(x, host);
    DoStart(a, b, host, hb, net, sent, log, x.tid, x.request);
    var r1 := Plain(r0, Two(a, b, host, hb, net, sent, log), Start(a, x.tid, x.request),
                    Two(a, b, h1, hb, net, sent, log'), from, c, end);
    AreRuns(r0, r1);
    DoCheck(a, b, h1, hb, net, sent, log', n);
    CheckContends(x, y, host, hb, net, sent, log', end);
    var r2 := Extend(r1, Two(a, b, h1, hb, net, sent, log'), Check(a, n),
                     Two(a, b, h2, hb, net, sent, log'), from, c, end);
    AreRuns(r1, r2);
    DoBroadcast(a, b, h2, hb, net, sent, log', n, p);
    r := Plain(r2, Two(a, b, h2, hb, net, sent, log'), Broadcast(a, n, Tried({}), {b}),
               Two(a, b, h3, hb, net + {p}, sent + {p}, log'), from, c, end);
    Prolongs2(r0, r1, r2);
    Prolongs2(r0, r2, r);
  }

  function Judged(x: Side, y: Side, host: Host): Host {
    Duel(x, y, host, Own(x, y, None, 0, WAIT), Peer(y, 1, Some(Verdict(x, y)), WAIT), Idle)
  }

  /** The request of y reaches the host of x, which votes on it. */
  lemma Judge(r0: Run, from: nat, x: Side, y: Side, host: Host, hb: Host,
              net: set<Packet>, sent: set<Packet>, log: Log, end: Log) returns (r: Run)
    requires Rivals(x, y) && Resting(host)
    requires IsRun(r0) && Clean(r0, from, Contest(x, y), end) && Packet(x.name, Ask(y)) in net
    requires r0.states[|r0.states| - 1] == Two(x.name, y.name, Calling(x, host, WAIT), hb, net, sent, log)
    ensures Prolongs(r0, r) && Clean(r, from, Contest(x, y), end)
    ensures var p, v := Packet(x.name, Ask(y)), Packet(y.name, Reply(y, x, Verdict(x, y)));
            r.states[|r.states| - 1] ==
            Two(x.name, y.name, Judged(x, y, host), hb, net - {p} + {v}, sent + {v}, log)
  {
    var a, b, c, i := x.name, y.name, Contest(x, y), |host.txs| + 1;
    var p, v := Packet(a, Ask(y)), Packet(b, Reply(y, x, Verdict(x, y)));
    var own := Own(x, y, None, 0, WAIT);
    var h0 := Calling(x, host, WAIT);
    var d0 := Duel(x, y, host, own, Peer(y, 0, None, WAIT), Busy(i, Ask(y)));
    var d1 := Duel(x, y, host, own, Peer(y, 1, None, Voting), Idle);
    DuelHears(x, y, host);
    RestingIdle(host);
    hide Taken, IsRun, Two, Contends, Verdict, Clean, Resting, Prolongs;
    DoDeliver(a, b, h0, hb, net, sent, log, p);
    var r1 := Plain(r0, Two(a, b, h0, hb, net, sent, log), Deliver(p),
                    Two(a, b, d0, hb, net - {p}, sent, log), from, c, end);
    AreRuns(r0, r1);
    DoRendezvous(a, b, d0, hb, net - {p}, sent, log, i, Ask(y));
    var r2 := Plain(r1, Two(a, b, d0, hb, net - {p}, sent, log), Rendezvous(a),
                    Two(a, b, d1, hb, net - {p}, sent, log), from, c, end);
    AreRuns(r1, r2);
    DoVoteTo(a, b, d1, hb, net - {p}, sent, log, i, ACK, Verdict(x, y), v);
    VoteContends(x, y, d1, hb, net - {p}, sent, log, end, host);
    r := Extend(r2, Two(a, b, d1, hb, net - {p}, sent, log), Vote(a, i, ACK, {b}),
                Two(a, b, Judged(x, y, host), hb, net - {p} + {v}, sent + {v}, log), from, c, end);
    Prolongs2(r0, r1, r2);
    Prolongs2(r0, r2, r);
  }

  /** The host of x when its call is over. */
  function Called(x: Side, y: Side, host: Host): Host {
    var w := Verdict(y, x);
    Duel(x, y, host, Own(x, y, Some(w), 1, Returned(Verdicts(w))), Peer(y, 1, Some(Verdict(x, y)), WAIT), Idle)
      .(clock := ClockAfter([w], host.clock))
  }

  /** The answer of y's host reaches x, whose call decides. */
  lemma Conclude(r0: Run, from: nat, x: Side, y: Side, host: Host, hb: Host,
                 net: set<Packet>, sent: set<Packet>, log: Log, end: Log) returns (r: Run)
    requires Rivals(x, y) && Resting(host)
    requires IsRun(r0) && Clean(r0, from, Contest(x, y), end) && Packet(x.name, Reply(x, y, Verdict(y, x))) in net
    requires r0.states[|r0.states| - 1] == Two(x.name, y.name, Judged(x, y, host), hb, net, sent, log)
    ensures Prolongs(r0, r) && Clean(r, from, Contest(x, y), end)
    ensures r.states[|r.states| - 1] ==
            Two(x.name, y.name, Called(x, y, host), hb, net - {Packet(x.name, Reply(x, y, Verdict(y, x)))}, sent, log)
  {
    var a, b, c, i, w := x.name, y.name, Contest(x, y), |host.txs|, Verdict(y, x);
    var p, peer := Packet(a, Reply(x, y, w)), Peer(y, 1, Some(Verdict(x, y)), WAIT);
    var d2 := Judged(x, y, host);
    var d3 := Duel(x, y, host, Own(x, y, Some(w), 0, WAIT), peer, Busy(i, Reply(x, y, w)));
    var d4 := Duel(x, y, host, Own(x, y, Some(w), 1, WAIT), peer, Idle);
    DuelEnds(x, y, host, peer, w);
    hide Taken, IsRun, Two, Contends, Verdict, ClockAfter, Clean, Resting, Prolongs;
    DoDeliver(a, b, d2, hb, net, sent, log, p);
    var r1 := Plain(r0, Two(a, b, d2, hb, net, sent, log), Deliver(p),
                    Two(a, b, d3, hb, net - {p}, sent, log), from, c, end);
    AreRuns(r0, r1);
    DoRendezvous(a, b, d3, hb, net - {p}, sent, log, i, Reply(x, y, w));
    var r2 := Plain(r1, Two(a, b, d3, hb, net - {p}, sent, log), Rendezvous(a),
                    Two(a, b, d4, hb, net - {p}, sent, log), from, c, end);
    AreRuns(r1, r2);
    DoDecide(a, b, d4, hb, net - {p}, sent, log, i);
    r := Plain(r2, Two(a, b, d4, hb, net - {p}, sent, log), Decide(a, i),
               Two(a, b, Called(x, y, host), hb, net - {p}, sent, log), from, c, end);
    Prolongs2(r0, r1, r2);
    Prolongs2(r0, r2, r);
  }

  /** The host of x while it clears away what is over. */
  function Late(x: Side, y: Side, host: Host, own: Phase, peer: Phase, registry: map<Tid, nat>): Host {
    var w := Verdict(y, x);
    Duel(x, y, host, Own(x, y, Some(w), 1, own), Peer(y, 1, Some(Verdict(x, y)), peer), Idle)
      .(clock := ClockAfter([w], host.clock), registry := registry)
  }

  function Rested(x: Side, y: Side, host: Host): Host {
    Late(x, y, host, Deleted(Verdicts(Verdict(y, x))), Deleted(Verdicts(Verdict(x, y))), map[])
  }

  lemma LateMoves(x: Side, y: Side, host: Host)
    requires Rivals(x, y)
    ensures var n, v, o := |host.txs|, Verdict(x, y), Verdicts(Verdict(y, x));
            var left := map[y.tid := n + 1];
            var d0, d1 := Called(x, y, host), Late(x, y, host, Deleted(o), WAIT, left);
            var decided := if v.NACK? then Returned(NotPermitted) else Mirroring;
            var d3 := Late(x, y, host, Deleted(o), Returned(Verdicts(v)), left);
            && SetTx(d0, n, d0.txs[n].(phase := Deleted(o))).(registry := d0.registry - {x.tid}) == d1
            && Decided(d1, n + 1) == Late(x, y, host, Deleted(o), decided, left)
            && SetTx(d3, n + 1, d3.txs[n + 1].(phase := Deleted(Verdicts(v)))).(registry := d3.registry - {y.tid})
               == Rested(x, y, host)
  {
    hide Verdict, ClockAfter;
    var n := |host.txs|;
    assert map[x.tid := n, y.tid := n + 1] - {x.tid} == map[y.tid := n + 1];
    assert map[y.tid := n + 1] - {y.tid} == map[];
    assert !HasNack([]);
  }

  lemma MirrorMoves(x: Side, y: Side, host: Host, own: Phase, registry: map<Tid, nat>)
    ensures var d := Late(x, y, host, own, Mirroring, registry); var i := |host.txs| + 1;
            SetTx(d, i, d.txs[i].(phase := Returned(Success))) == Late(x, y, host, own, Returned(Success), registry)
  {
    hide Verdict, ClockAfter;
  }

  lemma StillResting(x: Side, y: Side, host: Host)
    requires Resting(host)
    ensures Resting(Rested(x, y, host))
  {
    hide Verdict, ClockAfter;
  }

  /** The handler at x's host commits or not, as it voted. */
  lemma Settle(r0: Run, from: nat, x: Side, y: Side, host: Host, hb: Host, own: Phase, left: map<Tid, nat>,
               net: set<Packet>, sent: set<Packet>, log: Log, end: Log) returns (r: Run)
    requires x.name != y.name && IsRun(r0) && Clean(r0, from, Contest(x, y), end)
    requires var decided := if Verdict(x, y).NACK? then Returned(NotPermitted) else Mirroring;
             r0.states[|r0.states| - 1] ==
             Two(x.name, y.name, Late(x, y, host, own, decided, left), hb, net, sent, log)
    ensures Prolongs(r0, r) && Clean(r, from, Contest(x, y), end)
    ensures r.states[|r.states| - 1] ==
            Two(x.name, y.name, Late(x, y, host, own, Returned(Verdicts(Verdict(x, y))), left), hb, net, sent, log)
  {
    MirrorMoves(x, y, host, own, left);
    if Verdict(x, y).NACK? {
      r := r0;
    } else {
      hide Taken, IsRun, Two, Contends, Verdict, ClockAfter, Clean, Prolongs;
      var a, b, d, i := x.name, y.name, Late(x, y, host, own, Mirroring, left), |host.txs| + 1;
      DoMirror(a, b, d, hb, net, sent, log, i);
      r := Plain(r0, Two(a, b, d, hb, net, sent, log), MirrorReturns(a, i),
                 Two(a, b, Late(x, y, host, own, Returned(Success), left), hb, net, sent, log),
                 from, Contest(x, y), end);
    }
  }

  /** The host of x deletes its call, settles its handler and deletes that. */
  lemma Clear(r0: Run, from: nat, x: Side, y: Side, host: Host, hb: Host,
              net: set<Packet>, sent: set<Packet>, log: Log, end: Log) returns (r: Run)
    requires Rivals(x, y) && IsRun(r0) && Clean(r0, from, Contest(x, y), end)
    requires r0.states[|r0.states| - 1] == Two(x.name, y.name, Called(x, y, host), hb, net, sent, log)
    ensures Prolongs(r0, r) && Clean(r, from, Contest(x, y), end)
    ensures r.states[|r.states| - 1] == Two(x.name, y.name, Rested(x, y, host), hb, net, sent, log)
  {
    var a, b, c, n := x.name, y.name, Contest(x, y), |host.txs|;
    var v, o, left := Verdict(x, y), Verdicts(Verdict(y, x)), map[y.tid := |host.txs| + 1];
    var d0, d1 := Called(x, y, host), Late(x, y, host, Deleted(o), WAIT, left);
    var d2 := Late(x, y, host, Deleted(o), if v.NACK? then Returned(NotPermitted) else Mirroring, left);
    var d3 := Late(x, y, host, Deleted(o), Returned(Verdicts(v)), left);
    LateMoves(x, y, host);
    hide Taken, IsRun, Two, Contends, Verdict, ClockAfter, Clean, Prolongs;
    DoDelete(a, b, d0, hb, net, sent, log, n);
    var r1 := Plain(r0, Two(a, b, d0, hb, net, sent, log), Step.Delete(a, n),
                    Two(a, b, d1, hb, net, sent, log), from, c, end);
    AreRuns(r0, r1);
    DoDecide(a, b, d1, hb, net, sent, log, n + 1);
    var r2 := Plain(r1, Two(a, b, d1, hb, net, sent, log), Decide(a, n + 1),
                    Two(a, b, d2, hb, net, sent, log), from, c, end);
    AreRuns(r1, r2);
    var r3 := Settle(r2, from, x, y, host, hb, Deleted(o), left, net, sent, log, end);
    AreRuns(r2, r3);
    DoDelete(a, b, d3, hb, net, sent, log, n + 1);
    r := Plain(r3, Two(a, b, d3, hb, net, sent, log), Step.Delete(a, n + 1),
               Two(a, b, Rested(x, y, host), hb, net, sent, log), from, c, end);
    Prolongs2(r0, r1, r2);
    Prolongs2(r0, r2, r3);
    Prolongs2(r0, r3, r);
  }

  // ---------------------------------------------------------------- one round

  /** Both requests are out and both hosts have voted. */
  lemma Meet(r0: Run, x: Side, y: Side, hx: Host, hy: Host, net0: set<Packet>, sent0: set<Packet>, log: Log, end: Log)
    returns (r: Run, net: set<Packet>, sent: set<Packet>)
    requires Rivals(x, y) && Resting(hx) && Resting(hy) && x.tid !in log && y.tid !in log && IsRun(r0)
    requires r0.states[|r0.states| - 1] == Two(x.name, y.name, hx, hy, net0, sent0, log)
    requires end == log[x.tid := Of(x)][y.tid := Of(y)]
    ensures Prolongs(r0, r) && Clean(r, |r0.steps|, Contest(x, y), end)
    ensures Packet(x.name, Reply(x, y, Verdict(y, x))) in net && Packet(y.name, Reply(y, x, Verdict(x, y))) in net
    ensures r.states[|r.states| - 1] == Two(x.name, y.name, Judged(x, y, hx), Judged(y, x, hy), net, sent, end)
  {
    var a, b, from := x.name, y.name, |r0.steps|;
    assert Clean(r0, from, Contest(x, y), end);
    SameContest(x, y);
    hide Taken, IsRun, Two, Contends, Verdict, Duel, Contest, Clean, Prolongs, Resting, Judged, Calling;
    var r1 := Issue(r0, from, x, y, hx, hy, net0, sent0, log, end);
    AreRuns(r0, r1);
    var px, py := Packet(b, Ask(x)), Packet(a, Ask(y));
    var cx, cy, log1 := Calling(x, hx, WAIT), Calling(y, hy, WAIT), log[x.tid := Of(x)];
    net, sent := net0 + {px}, sent0 + {px};
    Flip(a, b, cx, hy, net, sent, log1);
    var r2 := Issue(r1, from, y, x, hy, cx, net, sent, log1, end);
    AreRuns(r1, r2);
    net, sent := net + {py}, sent + {py};
    Flip(a, b, cx, cy, net, sent, end);
    var r3 := Judge(r2, from, x, y, hx, cy, net, sent, end, end);
    AreRuns(r2, r3);
    var vx, vy := Packet(b, Reply(y, x, Verdict(x, y))), Packet(a, Reply(x, y, Verdict(y, x)));
    net, sent := net - {py} + {vx}, sent + {vx};
    Flip(a, b, Judged(x, y, hx), cy, net, sent, end);
    r := Judge(r3, from, y, x, hy, Judged(x, y, hx), net, sent, end, end);
    net, sent := net - {px} + {vy}, sent + {vy};
    Flip(a, b, Judged(x, y, hx), Judged(y, x, hy), net, sent, end);
    Prolongs2(r0, r1, r2);
    Prolongs2(r0, r2, r3);
    Prolongs2(r0, r3, r);
  }

  /** Both calls end and both hosts clear away what is over. */
  lemma Part(r0: Run, from: nat, x: Side, y: Side, hx: Host, hy: Host, net0: set<Packet>, sent: set<Packet>, end: Log)
    returns (r: Run, net: set<Packet>)
    requires Rivals(x, y) && Resting(hx) && Resting(hy) && IsRun(r0) && Clean(r0, from, Contest(x, y), end)
    requires r0.states[|r0.states| - 1] == Two(x.name, y.name, Judged(x, y, hx), Judged(y, x, hy), net0, sent, end)
    requires Packet(x.name, Reply(x, y, Verdict(y, x))) in net0 && Packet(y.name, Reply(y, x, Verdict(x, y))) in net0
    ensures Prolongs(r0, r) && Clean(r, from, Contest(x, y), end)
    ensures r.states[|r.states| - 1] == Two(x.name, y.name, Rested(x, y, hx), Rested(y, x, hy), net, sent, end)
  {
    var a, b := x.name, y.name;
    SameContest(x, y);
    hide Taken, IsRun, Two, Contends, Verdict, Contest, Clean, Prolongs, Resting, Judged, Called, Rested;
    var r1 := Conclude(r0, from, x, y, hx, Judged(y, x, hy), net0, sent, end, end);
    AreRuns(r0, r1);
    net := net0 - {Packet(a, Reply(x, y, Verdict(y, x)))};
    Flip(a, b, Called(x, y, hx), Judged(y, x, hy), net, sent, end);
    var r2 := Conclude(r1, from, y, x, hy, Called(x, y, hx), net, sent, end, end);
    AreRuns(r1, r2);
    net := net - {Packet(b, Reply(y, x, Verdict(x, y)))};
    Flip(a, b, Called(x, y, hx), Called(y, x, hy), net, sent, end);
    var r3 := Clear(r2, from, x, y, hx, Called(y, x, hy), net, sent, end, end);
    AreRuns(r2, r3);
    Flip(a, b, Rested(x, y, hx), Called(y, x, hy), net, sent, end);
    r := Clear(r3, from, y, x, hy, Rested(x, y, hx), net, sent, end, end);
    Flip(a, b, Rested(x, y, hx), Rested(y, x, hy), net, sent, end);
    Prolongs2(r0, r1, r2);
    Prolongs2(r0, r2, r3);
    Prolongs2(r0, r3, r);
  }

  /** Two hosts at rest can go through a round and be at rest again. */
  lemma OneRound(r0: Run, x: Side, y: Side, hx: Host, hy: Host, net0: set<Packet>, sent0: set<Packet>, log: Log)
    returns (r: Run, c: Round, net: set<Packet>, sent: set<Packet>)
    requires Rivals(x, y) && Resting(hx) && Resting(hy) && x.tid !in log && y.tid !in log && IsRun(r0)
    requires x.request.clock == hx.clock && y.request.clock == hy.clock
    requires r0.states[|r0.states| - 1] == Two(x.name, y.name, hx, hy, net0, sent0, log)
    ensures Prolongs(r0, r) && IsRound(r, c) && c.tids == map[x.name := x.tid, y.name := y.tid]
    ensures c.first == |r0.states| - 1 && c.last == |r.states| - 1
    ensures r.states[c.last] ==
            Two(x.name, y.name, Rested(x, y, hx), Rested(y, x, hy), net, sent, log[x.tid := Of(x)][y.tid := Of(y)])
  {
    var end := log[x.tid := Of(x)][y.tid := Of(y)];
    var r1, net1;
    r1, net1, sent := Meet(r0, x, y, hx, hy, net0, sent0, log, end);
    hide IsRun, Two, Contends, Verdict, Resting, Judged, Rested;
    AreRuns(r0, r1);
    r, net := Part(r1, |r0.steps|, x, y, hx, hy, net1, sent, end);
    Prolongs2(r0, r1, r);
    c := Contest(x, y).(first := |r0.states| - 1, last := |r.states| - 1);
    RoundFromDuel(r0, r, x, y, c, hx, hy, net0, sent0, log, net, sent);
  }

  lemma Ends(x: Side, y: Side, s: State, s': State, hx: Host)
    requires x.name in s.hosts && s.hosts[x.name] == hx && Resting(hx)
    requires x.name in s'.hosts && s'.hosts[x.name] == Rested(x, y, hx)
    ensures EndsAs(s', x.name, x.tid, Verdicts(Verdict(y, x)))
    ensures forall i: nat :: HasTx(s', x.name, i) && s'.hosts[x.name].txs[i].owner.Replicator? ==>
              s'.hosts[x.name].txs[i].data.tid == x.tid || (HasTx(s, x.name, i) && Rounds.Done(s.hosts[x.name].txs[i]))
  {
    hide Verdict, ClockAfter;
    var txs, n := s'.hosts[x.name].txs, |hx.txs|;
    assert OwnCall(txs[n], x.tid) && HasTx(s', x.name, n);
    assert forall i :: 0 <= i < n ==> txs[i] == hx.txs[i];
  }

  lemma RoundFromDuel(r0: Run, r: Run, x: Side, y: Side, c: Round, hx: Host, hy: Host,
                      net0: set<Packet>, sent0: set<Packet>, log: Log, net: set<Packet>, sent: set<Packet>)
    requires Rivals(x, y) && Resting(hx) && Resting(hy) && x.tid !in log && y.tid !in log
    requires x.request.clock == hx.clock && y.request.clock == hy.clock
    requires Prolongs(r0, r) && |r0.states| == |r0.steps| + 1
    requires c == Contest(x, y).(first := |r0.states| - 1, last := |r.states| - 1)
    requires r0.states[|r0.states| - 1] == Two(x.name, y.name, hx, hy, net0, sent0, log)
    requires Clean(r, |r0.steps|, Contest(x, y), log[x.tid := Of(x)][y.tid := Of(y)])
    requires r.states[|r.states| - 1] ==
             Two(x.name, y.name, Rested(x, y, hx), Rested(y, x, hy), net, sent, log[x.tid := Of(x)][y.tid := Of(y)])
    ensures IsRound(r, c)
  {
    hide IsRun, Rested, EndsAs, Issues, Contends, Verdict, Resting, Contest, Two;
    var s, s', end := r.states[c.first], r.states[c.last], log[x.tid := Of(x)][y.tid := Of(y)];
    TwoAt(x.name, y.name, hx, hy, net0, sent0, log);
    TwoAt(x.name, y.name, Rested(x, y, hx), Rested(y, x, hy), net, sent, end);
    DuelKeys(x, y, hx, hy, net0, sent0, log);
    DuelKeys(x, y, Rested(x, y, hx), Rested(y, x, hy), net, sent, end);
    Ends(x, y, s, s', hx);
    Ends(y, x, s, s', hy);
    DuelIssues(r, x, y, c, log);
    forall h | h in c.tids
      ensures CallsOnce(r, c, h)
    {
      assert h == x.name || h == y.name;
    }
    forall k | c.first <= k < c.last && k < |r.steps|
      ensures Contends(r.states[k], r.steps[k], c, s'.started)
    {
      SameTids(r.states[k], r.steps[k], Contest(x, y), c, s'.started);
    }
  }

  lemma DuelKeys(x: Side, y: Side, hx: Host, hy: Host, net: set<Packet>, sent: set<Packet>, log: Log)
    requires x.name != y.name
    ensures Two(x.name, y.name, hx, hy, net, sent, log).hosts.Keys == {x.name, y.name}
    ensures Contest(x, y).tids.Keys == {x.name, y.name}
    ensures Contest(x, y).tids[x.name] == x.tid && Contest(x, y).tids[y.name] == y.tid
  {
  }

  lemma DuelIssues(r: Run, x: Side, y: Side, c: Round, log: Log)
    requires Rivals(x, y) && Placed(r, c) && x.tid !in log && y.tid !in log
    requires c.tids.Keys == {x.name, y.name} && c.tids[x.name] == x.tid && c.tids[y.name] == y.tid
    requires r.states[c.first].started == log
    requires r.states[c.last].started == log[x.tid := Of(x)][y.tid := Of(y)]
    requires r.states[c.first].hosts[x.name].clock == x.request.clock
    requires r.states[c.first].hosts[y.name].clock == y.request.clock
    ensures Issues(r, c)
  {
  }

  lemma SameTids(s: State, step: Step, c: Round, c': Round, log: Log)
    requires c'.tids == c.tids && Contends(s, step, c, log)
    ensures Contends(s, step, c', log)
  {
  }

  // ---------------------------------------------------------------- many rounds

  /** A longer run has the same rounds. */
  lemma RoundKept(r: Run, r': Run, c: Round)
    requires Prolongs(r, r') && |r.states| == |r.steps| + 1 && IsRound(r, c)
    ensures IsRound(r', c)
  {
    hide IsRun, EndsAs, Lost, Contends, Done;
    assert r'.states[c.first] == r.states[c.first] && r'.states[c.last] == r.states[c.last];
    forall h | h in c.tids
      ensures CallsOnce(r', c, h)
    {
      assert CallsOnce(r, c, h);
    }
    forall k | c.first <= k < c.last && k < |r'.steps|
      ensures Contends(r'.states[k], r'.steps[k], c, r'.states[c.last].started)
    {
      assert Contends(r.states[k], r.steps[k], c, r.states[c.last].started);
    }
  }

  /** Ids by length, so that no two are equal. */
  function Mark(k: nat): (t: Tid)
    ensures |t| == k
  {
    seq(k, _ => '-')
  }

  /** Rounds of the two hosts up to here; both are at rest now. */
  ghost predicate Series(r: Run, cs: seq<Round>, a: Name, b: Name, hx: Host, hy: Host,
                         net: set<Packet>, sent: set<Packet>, log: Log)
  {
    && IsRun(r) && |r.states| == |r.steps| + 1 && Resting(hx) && Resting(hy)
    && r.states[|r.states| - 1] == Two(a, b, hx, hy, net, sent, log)
    && (forall t :: t in log ==> |t| < 2 * |cs|)
    && (forall j :: 0 <= j < |cs| ==> IsRound(r, cs[j]) && cs[j].tids.Keys == {a, b})
    && (forall j :: 0 <= j < |cs| - 1 ==> cs[j].last == cs[j + 1].first)
    && (if cs == [] then |r.states| == 1 else cs[0].first == 0 && cs[|cs| - 1].last == |r.states| - 1)
  }

  /** One round more, with the clocks the hosts have by now. */
  lemma AnotherRound(r0: Run, cs0: seq<Round>, a: Name, b: Name, q: Request, hx: Host, hy: Host,
                     net0: set<Packet>, sent0: set<Packet>, log: Log)
    returns (r: Run, c: Round, hx': Host, hy': Host, net: set<Packet>, sent: set<Packet>, log': Log)
    requires a != b && Series(r0, cs0, a, b, hx, hy, net0, sent0, log)
    ensures Series(r, cs0 + [c], a, b, hx', hy', net, sent, log') && r.states[0] == r0.states[0]
  {
    hide IsRun, IsRound, Rested, Resting, Two, Prolongs;
    var m := |cs0|;
    var x := Side(a, Mark(2 * m), q.(clock := hx.clock));
    var y := Side(b, Mark(2 * m + 1), q.(clock := hy.clock));
    r, c, net, sent := OneRound(r0, x, y, hx, hy, net0, sent0, log);
    hx', hy', log' := Rested(x, y, hx), Rested(y, x, hy), log[x.tid := Of(x)][y.tid := Of(y)];
    StillResting(x, y, hx);
    StillResting(y, x, hy);
    AreRuns(r0, r);
    RunSteps(r);
    KeptRounds(r0, r, cs0);
    SameStart(r0, r);
    assert c.tids.Keys == {a, b};
  }

  lemma KeptRounds(r: Run, r': Run, cs: seq<Round>)
    requires Prolongs(r, r') && |r.states| == |r.steps| + 1 && forall j :: 0 <= j < |cs| ==> IsRound(r, cs[j])
    ensures forall j :: 0 <= j < |cs| ==> IsRound(r', cs[j])
  {
    hide IsRun, IsRound, Prolongs;
    forall j | 0 <= j < |cs| {
      RoundKept(r, r', cs[j]);
    }
  }

  lemma SameStart(r: Run, r': Run)
    requires Prolongs(r, r') && |r.states| > 0
    ensures r'.states[0] == r.states[0]
  {
    hide IsRun;
  }

  lemma {:induction false} ManyRounds(a: Name, b: Name, q: Request, clockA: Uint64, clockB: Uint64, m: nat)
    returns (r: Run, cs: seq<Round>, hx: Host, hy: Host, net: set<Packet>, sent: set<Packet>, log: Log)
    requires a != b
    ensures |cs| == m && Series(r, cs, a, b, hx, hy, net, sent, log)
    ensures r.states[0] == Two(a, b, NewHost(clockA), NewHost(clockB), {}, {}, map[])
    decreases m
  {
    if m == 0 {
      r := TwoInitial(a, b, clockA, clockB);
      cs, hx, hy, net, sent, log := [], NewHost(clockA), NewHost(clockB), {}, {}, map[];
    } else {
      var r0, cs0, hx0, hy0, net0, sent0, log0 := ManyRounds(a, b, q, clockA, clockB, m - 1);
      hide Series;
      var c;
      r, c, hx, hy, net, sent, log := AnotherRound(r0, cs0, a, b, q, hx0, hy0, net0, sent0, log0);
      cs := cs0 + [c];
    }
  }

  lemma HostsStay(r: Run, k: nat)
    requires IsRun(r) && k < |r.states|
    ensures r.states[k].hosts.Keys == r.states[0].hosts.Keys
  {
    hide IsRun, Grows;
    RunGrows(r, 0, k);
    SameKeys(r.states[0], r.states[k]);
  }

  lemma SeriesContends(r: Run, cs: seq<Round>, a: Name, b: Name)
    requires IsRun(r) && |r.states| > 0 && r.states[0].hosts.Keys == {a, b} && a != b
    requires |cs| > 0 && cs[0].first == 0
    requires forall j :: 0 <= j < |cs| ==> IsRound(r, cs[j]) && cs[j].tids.Keys == {a, b}
    requires forall j :: 0 <= j < |cs| - 1 ==> cs[j].last == cs[j + 1].first
    ensures AllContend(r, cs, [a, b])
  {
    hide IsRun, Issues, CallsOnce, Contends, Rests;
    assert Members([a, b]) == {a, b};
    forall j | 0 <= j < |cs|
      ensures r.states[cs[j].first].hosts.Keys == {a, b}
    {
      HostsStay(r, cs[j].first);
    }
  }

  /** Any two hosts can contend for any path pair in any number of rounds, from any
      clocks. */
  lemma RoundsHappen(a: Name, b: Name, q: Request, clockA: Uint64, clockB: Uint64, m: nat)
    returns (r: Run, cs: seq<Round>)
    requires a != b && m > 0
    ensures IsRun(r) && |cs| == m && AllContend(r, cs, [a, b])
    ensures Clocks([a, b], r.states[cs[0].first]) == [clockA, clockB]
  {
    hide IsRun, IsRound, Resting, AllContend;
    var hx, hy, net, sent, log;
    r, cs, hx, hy, net, sent, log := ManyRounds(a, b, q, clockA, clockB, m);
    TwoHosts(a, b, NewHost(clockA), NewHost(clockB));
    SeriesContends(r, cs, a, b);
    ContendFacts(r, cs, [a, b]);
  }

  lemma ContendFacts(r: Run, cs: seq<Round>, names: seq<Name>)
    requires AllContend(r, cs, names)
    ensures |cs| > 0 && cs[0].first < |r.states| && Roster(names, r.states[cs[0].first])
  {
    hide Issues, CallsOnce, Contends, Rests;
  }

  /** The loser of one round wins the next: from equal clocks, two rounds of two hosts
      go to the greater name and then to the smaller. */
  lemma TakingTurns(a: Name, b: Name, q: Request, clock: Uint64) returns (r: Run, cs: seq<Round>)
    requires Less(a, b) && clock + 2 <= UINT64_SIZE
    ensures IsRun(r) && |cs| == 2 && AllContend(r, cs, [a, b])
    ensures cs[0].last < |r.states| && cs[1].last < |r.states|
    ensures Succeeds(r, cs, [a, b], 1, 0) && !Succeeds(r, cs, [a, b], 0, 0)
    ensures Succeeds(r, cs, [a, b], 0, 1) && !Succeeds(r, cs, [a, b], 1, 1)
  {
    hide IsRun, AllContend, Succeeds, Rank, Clocks, Less;
    LessIrreflexive(a);
    r, cs := RoundsHappen(a, b, q, clock, clock, 2);
    ContendFacts(r, cs, [a, b]);
    TwoRanks(a, b);
    FairRotation(r, cs, [a, b], clock, 0, 0);
    FairRotation(r, cs, [a, b], clock, 1, 0);
    FairRotation(r, cs, [a, b], clock, 0, 1);
    FairRotation(r, cs, [a, b], clock, 1, 1);
  }

  lemma TwoRanks(a: Name, b: Name)
    requires Less(a, b)
    ensures Rank([a, b], 0) == 1 && Rank([a, b], 1) == 0
  {
    hide Less;
    LessIrreflexive(a);
    LessIrreflexive(b);
    LessTotal(a, b);
    assert Greater([a, b], 0) == {1} && Greater([a, b], 1) == {};
  }
}
