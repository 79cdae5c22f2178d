/** The connection pool as a step system (connection/pool.go, connection/connection.go).

Accept and dial handlers, connection watchers and Pool.Close run concurrently. A
handler is one pass through `addConnectionHandler` ... `removeConnectionHandler`;
any number may be running. The body of Establish and of Connection.Close runs
under the connection's lock and takes two steps, since the shared counter is
changed after the status.
*/
module Pool {
  import opened Names
  import opened Sets

  datatype Status = Dead | Alive

  /** Who holds the lock of a connection between its status change and its count. */
  datatype Lock = Free | Establishing | ClosedByWatcher | ClosedByPool

  datatype Conn = Conn(status: Status, lock: Lock)

  /** A handler: counted but not checked, admitted, holding a connection's lock
      inside Establish, or about to be uncounted. */
  datatype Handler = Entered | Admitted | Installing(peer: Name) | Leaving

  /** Pool.Close: not called, waiting for zero handlers, closing the connections in
      `todo`, inside Close of one of them, or returned. */
  datatype Closer = Open | Waiting | Sweeping(todo: set<Name>) | Closing(peer: Name, todo: set<Name>) | Returned

  datatype Pool = Pool(
    conns: map<Name, Conn>,
    active: int,
    handlers: map<nat, Handler>,
    count: int,
    closed: bool,
    closer: Closer)

  datatype Step =
    | Run
    | Enter(id: nat)
    | CheckClosed(id: nat)
    | GiveUp(id: nat)
    | Install(id: nat, peer: Name)
    | Installed(id: nat)
    | Leave(id: nat)
    | WatcherCloses(peer: Name)
    | WatcherClosed(peer: Name)
    | SetClosed
    | SeeZero
    | CloseNext(peer: Name)
    | CloseDone
    | Return

  predicate Enabled(p: Pool, step: Step) {
    match step
    case Run => p.closer.Open? || p.closer.Returned?
    case Enter(id) => id !in p.handlers
    case CheckClosed(id) => id in p.handlers && p.handlers[id].Entered?
    case GiveUp(id) => id in p.handlers && p.handlers[id].Admitted?
    case Install(id, peer) =>
      && id in p.handlers && p.handlers[id].Admitted?
      && peer in p.conns && p.conns[peer] == Conn(Dead, Free)
    case Installed(id) => id in p.handlers && p.handlers[id].Installing? && p.handlers[id].peer in p.conns
    case Leave(id) => id in p.handlers && p.handlers[id].Leaving?
    case WatcherCloses(peer) => peer in p.conns && p.conns[peer] == Conn(Alive, Free)
    case WatcherClosed(peer) => peer in p.conns && p.conns[peer].lock.ClosedByWatcher?
    case SetClosed => p.closer.Open?
    case SeeZero => p.closer.Waiting? && p.count == 0
    case CloseNext(peer) =>
      p.closer.Sweeping? && peer in p.closer.todo && peer in p.conns && p.conns[peer].lock.Free?
    case CloseDone => p.closer.Closing? && p.closer.peer in p.conns
    case Return => p.closer.Sweeping? && p.closer.todo == {}
  }

  function Apply(p: Pool, step: Step): Pool
    requires Enabled(p, step)
  {
    match step
    case Run => p.(closed := false, closer := Open)
    case Enter(id) => p.(count := p.count + 1, handlers := p.handlers[id := Entered])
    case CheckClosed(id) => p.(handlers := p.handlers[id := if p.closed then Leaving else Admitted])
    case GiveUp(id) => p.(handlers := p.handlers[id := Leaving])
    case Install(id, peer) =>
      p.(conns := p.conns[peer := Conn(Alive, Establishing)], handlers := p.handlers[id := Installing(peer)])
    case Installed(id) =>
      var peer := p.handlers[id].peer;
      p.(
        conns := p.conns[peer := p.conns[peer].(lock := Free)],
        active := p.active + 1,
        handlers := p.handlers[id := Leaving])
    case Leave(id) => p.(count := p.count - 1, handlers := p.handlers - {id})
    case WatcherCloses(peer) => p.(conns := p.conns[peer := Conn(Dead, ClosedByWatcher)])
    case WatcherClosed(peer) => p.(conns := p.conns[peer := p.conns[peer].(lock := Free)], active := p.active - 1)
    case SetClosed => p.(closed := true, closer := Waiting)
    case SeeZero => p.(closer := Sweeping(p.conns.Keys))
    case CloseNext(peer) =>
      if p.conns[peer].status.Dead? then
        p.(closer := Sweeping(p.closer.todo - {peer}))
      else
        p.(conns := p.conns[peer := Conn(Dead, ClosedByPool)], closer := Closing(peer, p.closer.todo - {peer}))
    case CloseDone =>
      var peer := p.closer.peer;
      p.(
        conns := p.conns[peer := p.conns[peer].(lock := Free)],
        active := p.active - 1,
        closer := Sweeping(p.closer.todo))
    case Return => p.(closer := Returned)
  }

  predicate Initial(p: Pool) {
    && (forall n :: n in p.conns ==> p.conns[n] == Conn(Dead, Free))
    && p.active == 0 && p.handlers == map[] && p.count == 0 && !p.closed && p.closer == Open
  }

  // ---------------------------------------------------------------- the invariant

  /** The connection's contribution to the shared counter has been added. */
  predicate Counted(c: Conn) {
    if c.status.Alive? then !c.lock.Establishing? else c.lock.ClosedByWatcher? || c.lock.ClosedByPool?
  }

  function CountedConns(conns: map<Name, Conn>): set<Name> {
    set n | n in conns && Counted(conns[n])
  }

  ghost predicate LockInv(p: Pool) {
    && StatusInv(p)
    && (forall id :: id in p.handlers && p.handlers[id].Installing? ==>
          p.handlers[id].peer in p.conns && p.conns[p.handlers[id].peer].lock.Establishing?)
    && OneInstaller(p)
    && (forall n :: n in p.conns && p.conns[n].lock.Establishing? ==> HasInstaller(p, n))
  }

  ghost predicate StatusInv(p: Pool) {
    forall n :: n in p.conns ==>
      match p.conns[n].lock
      case Free => true
      case Establishing => p.conns[n].status.Alive?
      case ClosedByWatcher => p.conns[n].status.Dead?
      case ClosedByPool => p.conns[n].status.Dead? && p.closer.Closing? && p.closer.peer == n
  }

  ghost predicate OneInstaller(p: Pool) {
    forall i, j :: i in p.handlers && j in p.handlers && p.handlers[i].Installing? ==>
      p.handlers[j] == p.handlers[i] ==> i == j
  }

  ghost predicate HasInstaller(p: Pool, n: Name) {
    exists id :: id in p.handlers && p.handlers[id] == Installing(n)
  }

  /** Past the moment Pool.Close saw zero handlers. */
  predicate Drained(p: Pool) {
    p.closer.Sweeping? || p.closer.Closing? || p.closer.Returned?
  }

  ghost predicate CloserInv(p: Pool) {
    && (!p.closer.Open? ==> p.closed)
    && (Drained(p) ==> forall id :: id in p.handlers ==> p.handlers[id].Entered? || p.handlers[id].Leaving?)
    && (p.closer.Closing? ==> p.closer.peer in p.conns && p.conns[p.closer.peer].lock.ClosedByPool?)
    && (Drained(p) ==> forall n :: n in p.conns && !Pending(p.closer, n) ==> p.conns[n] == Conn(Dead, Free))
  }

  /** The sweep has not finished with this connection. */
  predicate Pending(closer: Closer, n: Name) {
    match closer
    case Sweeping(todo) => n in todo
    case Closing(peer, todo) => n in todo || n == peer
    case _ => false
  }

  ghost predicate Inv(p: Pool) {
    && p.count == |p.handlers|
    && p.active == |CountedConns(p.conns)|
    && LockInv(p)
    && CloserInv(p)
  }

  lemma InitialInv(p: Pool)
    requires Initial(p)
    ensures Inv(p)
  {
    assert CountedConns(p.conns) == {};
  }

  // ---------------------------------------------------------------- steps keep it

  /** What one connection's update does to the set behind the counter. */
  lemma CountedUpdate(conns: map<Name, Conn>, n: Name, c: Conn)
    requires n in conns
    ensures var before, after := CountedConns(conns), CountedConns(conns[n := c]);
            |after| == |before| + (if Counted(c) then 1 else 0) - (if Counted(conns[n]) then 1 else 0)
  {
    var before, after := CountedConns(conns), CountedConns(conns[n := c]);
    assert after == (before - {n}) + if Counted(c) then {n} else {};
    assert |before - {n}| == |before| - if n in before then 1 else 0;
  }

  /** What the locks say of the connection an owner is about to release. */
  lemma HeldConn(p: Pool, step: Step)
    requires Inv(p) && Enabled(p, step)
    ensures step.Installed? ==> p.conns[p.handlers[step.id].peer] == Conn(Alive, Establishing)
    ensures step.WatcherClosed? ==> p.conns[step.peer] == Conn(Dead, ClosedByWatcher)
    ensures step.CloseDone? ==> p.conns[p.closer.peer] == Conn(Dead, ClosedByPool)
  {
    hide HasInstaller, CountedConns;
  }

  lemma ActiveKept(p: Pool, step: Step)
    requires Inv(p) && Enabled(p, step)
    ensures Apply(p, step).active == |CountedConns(Apply(p, step).conns)|
  {
    HeldConn(p, step);
    hide LockInv, CloserInv, CountedConns;
    var p' := Apply(p, step);
    match step {
      case Install(id, peer) => CountedUpdate(p.conns, peer, p'.conns[peer]);
      case Installed(id) => CountedUpdate(p.conns, p.handlers[id].peer, p'.conns[p.handlers[id].peer]);
      case WatcherCloses(peer) => CountedUpdate(p.conns, peer, p'.conns[peer]);
      case WatcherClosed(peer) => CountedUpdate(p.conns, peer, p'.conns[peer]);
      case CloseNext(peer) =>
        if p.conns[peer].status.Alive? {
          CountedUpdate(p.conns, peer, p'.conns[peer]);
        }
      case CloseDone => CountedUpdate(p.conns, p.closer.peer, p'.conns[p.closer.peer]);
      case _ =>
    }
  }

  lemma HandlersSize(p: Pool, step: Step)
    requires Enabled(p, step)
    ensures |Apply(p, step).handlers| ==
            |p.handlers| + (if step.Enter? then 1 else 0) - (if step.Leave? then 1 else 0)
  {
    hide Enabled;
    var p' := Apply(p, step);
    var keys, keys' := p.handlers.Keys, p'.handlers.Keys;
    assert |p'.handlers| == |keys'| && |p.handlers| == |keys|;
    HandlersKeys(p, step);
  }

  lemma HandlersKeys(p: Pool, step: Step)
    requires Enabled(p, step)
    ensures step.Enter? ==> step.id !in p.handlers && Apply(p, step).handlers.Keys == p.handlers.Keys + {step.id}
    ensures step.Leave? ==> step.id in p.handlers && Apply(p, step).handlers.Keys == p.handlers.Keys - {step.id}
    ensures !step.Enter? && !step.Leave? ==> Apply(p, step).handlers.Keys == p.handlers.Keys
  {
  }

  /** Every lock held by Establish still has its handler. */
  lemma InstallersKept(p: Pool, step: Step, n: Name)
    requires Inv(p) && Enabled(p, step)
    requires n in Apply(p, step).conns && Apply(p, step).conns[n].lock.Establishing?
    ensures HasInstaller(Apply(p, step), n)
  {
    hide CountedConns, CloserInv;
    var p' := Apply(p, step);
    if step.Install? && step.peer == n {
      assert p'.handlers[step.id] == Installing(n);
    } else {
      assert HasInstaller(p, n);
      var id :| id in p.handlers && p.handlers[id] == Installing(n);
      assert id in p'.handlers && p'.handlers[id] == Installing(n);
    }
  }

  lemma StatusKept(p: Pool, step: Step)
    requires StatusInv(p) && CloserInv(p) && Enabled(p, step)
    ensures StatusInv(Apply(p, step))
  {
  }

  lemma OneInstallerKept(p: Pool, step: Step)
    requires LockInv(p) && Enabled(p, step)
    ensures OneInstaller(Apply(p, step))
  {
    hide HasInstaller, StatusInv;
    var p' := Apply(p, step);
    forall i, j | i in p'.handlers && j in p'.handlers && p'.handlers[i].Installing? && p'.handlers[j] == p'.handlers[i]
      ensures i == j
    {
      assert step.Install? || (i in p.handlers && j in p.handlers && p.handlers[i] == p.handlers[j]);
    }
  }

  lemma HoldersKept(p: Pool, step: Step, id: nat)
    requires LockInv(p) && CloserInv(p) && Enabled(p, step)
    requires id in Apply(p, step).handlers && Apply(p, step).handlers[id].Installing?
    ensures var p' := Apply(p, step);
            p'.handlers[id].peer in p'.conns && p'.conns[p'.handlers[id].peer].lock.Establishing?
  {
    hide HasInstaller, StatusInv;
  }

  lemma LocksKept(p: Pool, step: Step)
    requires Inv(p) && Enabled(p, step)
    ensures LockInv(Apply(p, step))
  {
    var p' := Apply(p, step);
    StatusKept(p, step);
    OneInstallerKept(p, step);
    hide Apply, Enabled, StatusInv, OneInstaller, HasInstaller, CountedConns, CloserInv;
    forall id | id in p'.handlers && p'.handlers[id].Installing?
      ensures p'.handlers[id].peer in p'.conns && p'.conns[p'.handlers[id].peer].lock.Establishing?
    {
      HoldersKept(p, step, id);
    }
    forall n | n in p'.conns && p'.conns[n].lock.Establishing?
      ensures HasInstaller(p', n)
    {
      InstallersKept(p, step, n);
    }
  }

  lemma CloserKept(p: Pool, step: Step)
    requires Inv(p) && Enabled(p, step)
    ensures CloserInv(Apply(p, step))
  {
    hide CountedConns;
    if step.SeeZero? {
      assert |p.handlers.Keys| == 0;
      assert p.handlers.Keys == {};
    }
  }

  lemma StepKeepsInv(p: Pool, step: Step)
    requires Inv(p) && Enabled(p, step)
    ensures Inv(Apply(p, step))
  {
    ActiveKept(p, step);
    LocksKept(p, step);
    CloserKept(p, step);
    HandlersSize(p, step);
    hide LockInv, CloserInv, CountedConns;
  }

  // ---------------------------------------------------------------- runs

  datatype Trace = Trace(states: seq<Pool>, steps: seq<Step>)

  predicate Taken(p: Pool, step: Step, p': Pool) {
    Enabled(p, step) && p' == Apply(p, step)
  }

  ghost predicate IsTrace(r: Trace) {
    && |r.states| == |r.steps| + 1
    && Initial(r.states[0])
    && forall k :: 0 <= k < |r.steps| ==> Taken(r.states[k], r.steps[k], r.states[k + 1])
  }

  lemma {:induction false} TraceInv(r: Trace, k: nat)
    requires IsTrace(r) && k < |r.states|
    ensures Inv(r.states[k])
  {
    hide Inv, Enabled, Apply, Initial;
    if k == 0 {
      InitialInv(r.states[0]);
    } else {
      TraceInv(r, k - 1);
      assert Taken(r.states[k - 1], r.steps[k - 1], r.states[k]);
      StepKeepsInv(r.states[k - 1], r.steps[k - 1]);
    }
  }

  predicate AllDead(p: Pool) {
    forall n :: n in p.conns ==> p.conns[n].status.Dead?
  }

  predicate LocksFree(p: Pool) {
    forall n :: n in p.conns ==> p.conns[n].lock.Free?
  }

  /** Once Pool.Close has seen zero handlers, no step but Run brings a connection up
      or lets a handler in. */
  lemma NothingComesUp(r: Trace, k: nat, n: Name)
    requires IsTrace(r) && k < |r.steps| && Drained(r.states[k]) && !r.steps[k].Run?
    requires n in r.states[k].conns && r.states[k].conns[n].status.Dead?
    ensures Drained(r.states[k + 1])
    ensures n in r.states[k + 1].conns && r.states[k + 1].conns[n].status.Dead?
  {
    TraceInv(r, k);
    assert Taken(r.states[k], r.steps[k], r.states[k + 1]);
    hide LockInv, IsTrace, CountedConns;
  }

  /** Quiescence: when Pool.Close returns every connection is dead, no lock is held
      and the shared counter is zero. */
  lemma Quiescence(r: Trace, k: nat)
    requires IsTrace(r) && k < |r.states| && r.states[k].closer.Returned?
    ensures AllDead(r.states[k]) && LocksFree(r.states[k]) && r.states[k].active == 0
  {
    TraceInv(r, k);
    hide IsTrace, LockInv;
    assert CountedConns(r.states[k].conns) == {};
  }

  /** ... and it stays so until the pool is run again. */
  lemma {:induction false} StaysQuiet(r: Trace, j: nat, k: nat)
    requires IsTrace(r) && j <= k < |r.states| && r.states[j].closer.Returned?
    requires forall i :: j <= i < k ==> !r.steps[i].Run?
    ensures r.states[k].closer.Returned?
    ensures AllDead(r.states[k]) && LocksFree(r.states[k]) && r.states[k].active == 0
    decreases k - j
  {
    hide AllDead, LocksFree;
    if j == k {
    } else {
      StaysQuiet(r, j, k - 1);
      assert Taken(r.states[k - 1], r.steps[k - 1], r.states[k]);
      assert !r.steps[k - 1].Run?;
    }
    Quiescence(r, k);
  }

  // ---------------------------------------------------------------- the broadcast gate

  /** Broadcast's test: as many active connections as there are peers. */
  predicate GateOpen(p: Pool) {
    p.active == |p.conns|
  }

  /** In every state the gate is open exactly when every connection is counted; when
      no lock is held, exactly when every connection is alive. */
  lemma BroadcastGate(r: Trace, k: nat)
    requires IsTrace(r) && k < |r.states|
    ensures GateOpen(r.states[k]) <==> forall n :: n in r.states[k].conns ==> Counted(r.states[k].conns[n])
    ensures LocksFree(r.states[k]) ==>
              r.states[k].active == |set n | n in r.states[k].conns && r.states[k].conns[n].status.Alive?|
    ensures LocksFree(r.states[k]) ==>
              (GateOpen(r.states[k]) <==> forall n :: n in r.states[k].conns ==> r.states[k].conns[n].status.Alive?)
  {
    TraceInv(r, k);
    hide IsTrace, LockInv, CloserInv;
    var p := r.states[k];
    var counted := CountedConns(p.conns);
    assert |p.conns| == |p.conns.Keys|;
    SubsetSize(counted, p.conns.Keys);
    if GateOpen(p) {
      assert counted == p.conns.Keys;
    }
    assert (forall n :: n in p.conns ==> Counted(p.conns[n])) ==> counted == p.conns.Keys;
    if LocksFree(p) {
      assert counted == set n | n in p.conns && p.conns[n].status.Alive?;
    }
  }
}
