/** What the pool does when nothing stands in its way: connections come up, go down and
come up again; and who is let in. */
module PoolTraces {
  import opened Names
  import opened Pool

  // ---------------------------------------------------------------- longer traces

  function Last(r: Trace): Pool
    requires |r.states| > 0
  {
    r.states[|r.states| - 1]
  }

  ghost predicate Prolongs(r: Trace, r': Trace) {
    IsTrace(r) && IsTrace(r') && r.states <= r'.states && r.steps <= r'.steps
  }

  lemma Then(r: Trace, step: Step, p: Pool) returns (r': Trace)
    requires IsTrace(r) && Taken(Last(r), step, p)
    ensures Prolongs(r, r') && Last(r') == p
  {
    hide Taken, Initial;
    r' := Trace(r.states + [p], r.steps + [step]);
    forall k | 0 <= k < |r'.steps|
      ensures Taken(r'.states[k], r'.steps[k], r'.states[k + 1])
    {
      if k < |r.steps| {
        assert Taken(r.states[k], r.steps[k], r.states[k + 1]);
      }
    }
  }

  lemma Prolongs2(r: Trace, r': Trace, r'': Trace)
    requires Prolongs(r, r') && Prolongs(r', r'')
    ensures Prolongs(r, r'')
  {
    hide IsTrace;
  }

  lemma AreTraces(r: Trace, r': Trace)
    requires Prolongs(r, r')
    ensures IsTrace(r) && IsTrace(r') && 0 < |r.states| <= |r'.states|
  {
  }

  lemma NotEmpty(r: Trace)
    requires IsTrace(r)
    ensures |r.states| > 0
  {
  }

  lemma SameState(r: Trace, r': Trace, k: nat)
    requires Prolongs(r, r') && k < |r.states|
    ensures k < |r'.states| && r'.states[k] == r.states[k]
  {
    hide IsTrace;
  }

  // ---------------------------------------------------------------- one connection

  /** Running, with nobody at work. */
  predicate Calm(p: Pool) {
    p.handlers == map[] && p.count == 0 && p.closer.Open? && !p.closed && LocksFree(p)
  }

  function WithConn(p: Pool, n: Name, status: Status, change: int): Pool {
    p.(conns := p.conns[n := Conn(status, Free)], active := p.active + change)
  }

  /** A handler comes, is let in, establishes the connection and leaves. */
  lemma ComesUp(r0: Trace, n: Name) returns (r: Trace)
    requires IsTrace(r0) && Calm(Last(r0)) && n in Last(r0).conns && Last(r0).conns[n].status.Dead?
    ensures Prolongs(r0, r) && Last(r) == WithConn(Last(r0), n, Alive, 1)
  {
    NotEmpty(r0);
    hide IsTrace;
    var p := Last(r0);
    assert p.conns[n] == Conn(Dead, Free);
    var p1 := p.(count := 1, handlers := map[0 := Entered]);
    var p2 := p1.(handlers := map[0 := Admitted]);
    var p3 := p2.(conns := p.conns[n := Conn(Alive, Establishing)], handlers := map[0 := Installing(n)]);
    var p4 := WithConn(p, n, Alive, 1).(count := 1, handlers := map[0 := Leaving]);
    var p5 := WithConn(p, n, Alive, 1);
    assert map[0 := Entered][0 := Admitted] == map[0 := Admitted];
    assert map[0 := Admitted][0 := Installing(n)] == map[0 := Installing(n)];
    assert map[0 := Installing(n)][0 := Leaving] == map[0 := Leaving];
    assert map[0 := Leaving] - {0} == map[];
    assert p.conns[n := Conn(Alive, Establishing)][n := Conn(Alive, Free)] == p.conns[n := Conn(Alive, Free)];
    var r1 := Then(r0, Enter(0), p1);
    AreTraces(r0, r1);
    var r2 := Then(r1, CheckClosed(0), p2);
    AreTraces(r1, r2);
    var r3 := Then(r2, Install(0, n), p3);
    AreTraces(r2, r3);
    var r4 := Then(r3, Installed(0), p4);
    AreTraces(r3, r4);
    r := Then(r4, Leave(0), p5);
    Prolongs2(r0, r1, r2);
    Prolongs2(r0, r2, r3);
    Prolongs2(r0, r3, r4);
    Prolongs2(r0, r4, r);
  }

  /** The connection is lost and its watcher closes it. */
  lemma GoesDown(r0: Trace, n: Name) returns (r: Trace)
    requires IsTrace(r0) && Calm(Last(r0)) && n in Last(r0).conns && Last(r0).conns[n].status.Alive?
    ensures Prolongs(r0, r) && Last(r) == WithConn(Last(r0), n, Dead, -1)
  {
    NotEmpty(r0);
    hide IsTrace;
    var p := Last(r0);
    assert p.conns[n] == Conn(Alive, Free);
    var p1 := p.(conns := p.conns[n := Conn(Dead, ClosedByWatcher)]);
    assert p.conns[n := Conn(Dead, ClosedByWatcher)][n := Conn(Dead, Free)] == p.conns[n := Conn(Dead, Free)];
    var r1 := Then(r0, WatcherCloses(n), p1);
    AreTraces(r0, r1);
    r := Then(r1, WatcherClosed(n), WithConn(p, n, Dead, -1));
    Prolongs2(r0, r1, r);
  }

  // ---------------------------------------------------------------- any pattern

  /** Exactly the connections in `up` are alive. */
  predicate Pattern(p: Pool, up: set<Name>) {
    forall n :: n in p.conns ==> (p.conns[n].status.Alive? <==> n in up)
  }

  function Wrong(p: Pool, up: set<Name>): set<Name> {
    set n | n in p.conns && p.conns[n].status.Alive? != (n in up)
  }

  lemma {:induction false} ReachPattern(r0: Trace, up: set<Name>) returns (r: Trace)
    requires IsTrace(r0) && Calm(Last(r0))
    ensures Prolongs(r0, r) && Calm(Last(r)) && Pattern(Last(r), up) && Last(r).conns.Keys == Last(r0).conns.Keys
    decreases |Wrong(Last(r0), up)|
  {
    NotEmpty(r0);
    hide IsTrace;
    var p, wrong := Last(r0), Wrong(Last(r0), up);
    if wrong == {} {
      r := r0;
      forall n | n in p.conns
        ensures p.conns[n].status.Alive? <==> n in up
      {
        assert n !in wrong;
      }
    } else {
      var n :| n in wrong;
      var r1;
      if n in up {
        r1 := ComesUp(r0, n);
      } else {
        r1 := GoesDown(r0, n);
      }
      AreTraces(r0, r1);
      assert Wrong(Last(r1), up) == wrong - {n};
      assert Last(r1).conns.Keys == p.conns.Keys;
      r := ReachPattern(r1, up);
      Prolongs2(r0, r1, r);
    }
  }

  /** Every pattern of living and dead connections can come about: from the start, and
      from any moment at which nobody is at work. */
  lemma AnyPattern(p: Pool, up: set<Name>) returns (r: Trace)
    requires Initial(p)
    ensures IsTrace(r) && r.states[0] == p && Calm(Last(r)) && Pattern(Last(r), up)
  {
    var r0 := Trace([p], []);
    r := ReachPattern(r0, up);
  }

  /** Every connection is alive, no lock is held and the gate is open. */
  ghost predicate AllUp(p: Pool) {
    LocksFree(p) && GateOpen(p) && forall n :: n in p.conns ==> p.conns[n].status.Alive?
  }

  lemma BringUp(r0: Trace) returns (r: Trace)
    requires IsTrace(r0) && Calm(Last(r0))
    ensures Prolongs(r0, r) && Calm(Last(r)) && AllUp(Last(r))
  {
    NotEmpty(r0);
    hide IsTrace;
    r := ReachPattern(r0, Last(r0).conns.Keys);
    AreTraces(r0, r);
    BroadcastGate(r, |r.states| - 1);
  }

  // ---------------------------------------------------------------- closing and running again

  /** Pool.Close goes through the connections that are left. */
  lemma {:induction false} Sweep(r0: Trace, todo: set<Name>) returns (r: Trace)
    requires IsTrace(r0) && Last(r0).closer == Sweeping(todo) && todo <= Last(r0).conns.Keys
    requires LocksFree(Last(r0)) && Last(r0).handlers == map[] && Last(r0).count == 0
    ensures Prolongs(r0, r) && Last(r).closer == Sweeping({})
    ensures LocksFree(Last(r)) && Last(r).handlers == map[] && Last(r).count == 0
    decreases |todo|
  {
    NotEmpty(r0);
    hide IsTrace;
    if todo == {} {
      r := r0;
    } else {
      var p := Last(r0);
      var n :| n in todo;
      var r1;
      if p.conns[n].status.Dead? {
        r1 := Then(r0, CloseNext(n), p.(closer := Sweeping(todo - {n})));
      } else {
        var p1 := p.(conns := p.conns[n := Conn(Dead, ClosedByPool)], closer := Closing(n, todo - {n}));
        assert p1.conns[n := Conn(Dead, Free)] == p.conns[n := Conn(Dead, Free)];
        var r' := Then(r0, CloseNext(n), p1);
        AreTraces(r0, r');
        r1 := Then(r', CloseDone, WithConn(p, n, Dead, -1).(closer := Sweeping(todo - {n})));
        Prolongs2(r0, r', r1);
      }
      AreTraces(r0, r1);
      r := Sweep(r1, todo - {n});
      Prolongs2(r0, r1, r);
    }
  }

  /** Close returns, and then the pool runs again. */
  lemma CloseAndRun(r0: Trace) returns (r: Trace, k: nat)
    requires IsTrace(r0) && Calm(Last(r0))
    ensures Prolongs(r0, r) && Calm(Last(r)) && |r0.states| <= k < |r.states| && r.states[k].closer.Returned?
  {
    NotEmpty(r0);
    hide IsTrace;
    var p := Last(r0);
    var p1 := p.(closed := true, closer := Waiting);
    var r1 := Then(r0, SetClosed, p1);
    AreTraces(r0, r1);
    var r2 := Then(r1, SeeZero, p1.(closer := Sweeping(p.conns.Keys)));
    AreTraces(r1, r2);
    var r3 := Sweep(r2, p.conns.Keys);
    AreTraces(r2, r3);
    var r4 := Then(r3, Return, Last(r3).(closer := Returned));
    AreTraces(r3, r4);
    r := Then(r4, Step.Run, Last(r4).(closed := false, closer := Open));
    AreTraces(r4, r);
    k := |r4.states| - 1;
    SameState(r4, r, k);
    Prolongs2(r0, r1, r2);
    Prolongs2(r0, r2, r3);
    Prolongs2(r0, r3, r4);
    Prolongs2(r0, r4, r);
    LongerBy(r3, r4);
  }

  lemma LongerBy(r: Trace, r': Trace)
    requires Prolongs(r, r') && |r.states| > 0 && |r'.states| > 0 && Last(r) != Last(r')
    ensures |r.states| < |r'.states|
  {
    hide IsTrace;
  }

  /** From every initial pool there is a trace in which all connections come up and the
      gate opens, Close then takes all of them down, and after the next Run all come up
      and the gate opens again. */
  lemma UpDownUp(p: Pool) returns (r: Trace, i: nat, j: nat, k: nat)
    requires Initial(p)
    ensures IsTrace(r) && r.states[0] == p && i < j < k < |r.states|
    ensures AllUp(r.states[i])
    ensures r.states[j].closer.Returned? && AllDead(r.states[j]) && r.states[j].active == 0
    ensures AllUp(r.states[k])
  {
    var r0 := Trace([p], []);
    assert IsTrace(r0) && Calm(Last(r0));
    hide IsTrace, AllUp, Calm, Initial;
    var r1 := BringUp(r0);
    AreTraces(r0, r1);
    i := |r1.states| - 1;
    var r2;
    r2, j := CloseAndRun(r1);
    AreTraces(r1, r2);
    r := BringUp(r2);
    AreTraces(r2, r);
    k := |r.states| - 1;
    SameState(r2, r, j);
    SameState(r1, r2, i);
    SameState(r2, r, i);
    Prolongs2(r0, r1, r2);
    Prolongs2(r0, r2, r);
    SameState(r0, r, 0);
    Quiescence(r, j);
    CalmIsOpen(Last(r));
  }

  lemma CalmIsOpen(p: Pool)
    requires Calm(p)
    ensures !p.closer.Returned?
  {
  }

  // ---------------------------------------------------------------- who is let in

  /** Close was called, and the pool has not been run again since. */
  ghost predicate CloseCalled(r: Trace, k: nat)
    requires k <= |r.steps|
  {
    exists j :: 0 <= j < k && r.steps[j].SetClosed? && NoRunIn(r, j, k)
  }

  predicate NoRunIn(r: Trace, j: nat, k: nat)
    requires j <= k <= |r.steps|
  {
    forall i :: j <= i < k ==> !r.steps[i].Run?
  }

  lemma {:induction false} ClosedIsCalled(r: Trace, k: nat)
    requires IsTrace(r) && k <= |r.steps|
    ensures r.states[k].closed <==> CloseCalled(r, k)
    decreases k
  {
    if k == 0 {
    } else {
      ClosedIsCalled(r, k - 1);
      assert Taken(r.states[k - 1], r.steps[k - 1], r.states[k]);
      CalledNext(r, k - 1);
    }
  }

  lemma CalledNext(r: Trace, k: nat)
    requires k < |r.steps|
    ensures CloseCalled(r, k + 1) <==> r.steps[k].SetClosed? || (!r.steps[k].Run? && CloseCalled(r, k))
  {
    if r.steps[k].SetClosed? {
      assert NoRunIn(r, k, k + 1);
    }
    if j :| 0 <= j < k && r.steps[j].SetClosed? && NoRunIn(r, j, k) {
      assert !r.steps[k].Run? ==> NoRunIn(r, j, k + 1);
    }
    if j :| 0 <= j < k + 1 && r.steps[j].SetClosed? && NoRunIn(r, j, k + 1) {
      assert j < k ==> NoRunIn(r, j, k) && !r.steps[k].Run?;
    }
  }

  /** A handler that checks is let in if and only if Close has not been called since the
      pool was last run; else it can only leave. Nothing but its own place changes. */
  lemma Admission(r: Trace, k: nat, id: nat)
    requires IsTrace(r) && k < |r.steps| && r.steps[k] == CheckClosed(id)
    ensures id in r.states[k + 1].handlers
    ensures r.states[k + 1].handlers[id] == if CloseCalled(r, k) then Leaving else Admitted
    ensures r.states[k + 1] == r.states[k].(handlers := r.states[k].handlers[id := r.states[k + 1].handlers[id]])
  {
    ClosedIsCalled(r, k);
    hide CloseCalled, Initial;
    assert Taken(r.states[k], r.steps[k], r.states[k + 1]);
  }

  /** Wherever a trace has got to, every handler can take its next step, and one that was
      let in may also give up; so none keeps Pool.Close waiting for ever. */
  lemma HandlersCanLeave(r: Trace, k: nat, id: nat)
    requires IsTrace(r) && k < |r.states| && id in r.states[k].handlers
    ensures var p := r.states[k];
            match p.handlers[id]
            case Entered => Enabled(p, CheckClosed(id))
            case Admitted => Enabled(p, GiveUp(id)) && Apply(p, GiveUp(id)).handlers[id] == Leaving
            case Installing(_) => Enabled(p, Installed(id)) && Apply(p, Installed(id)).handlers[id] == Leaving
            case Leaving => Enabled(p, Leave(id)) && id !in Apply(p, Leave(id)).handlers
  {
    TraceInv(r, k);
    hide IsTrace, CloserInv, CountedConns;
  }
}
