/** Resolving simultaneous dials (connection/perspective.go, Establish in
connection/connection.go). Both ends of a connection exchange one byte, the
resolvent, and decide alone whether to keep the connection. */
module Perspective {
  import opened Names
  import opened Messages

  // ---------------------------------------------------------------- the resolvent

  const UNKNOWN: bv8 := 0
  const SERVER: bv8 := 1
  const CLIENT: bv8 := 2

  datatype Resolvent = Resolvent(perspective: bv8, ctr: bv32)

  /** Perspective in the two high bits, counter in the six low ones; the counter is
      not masked, so from 64 on it spills into the perspective. */
  function Encode(r: Resolvent): seq<bv8> {
    [((((r.perspective as bv32) << 6) | r.ctr) & 0xFF) as bv8]
  }

  function Decode(b: seq<bv8>): Option<Resolvent> {
    if |b| != 1 then None else Some(Resolvent(b[0] >> 6, (b[0] & 63) as bv32))
  }

  /** The low six bits of a counter, which is all that travels. */
  function Low(ctr: bv32): bv32 {
    ctr & 63
  }

  lemma DecodedCounter(p: bv8, ctr: bv32)
    requires p == SERVER || p == CLIENT
    ensures Decode(Encode(Resolvent(p, ctr))).Some?
    ensures Decode(Encode(Resolvent(p, ctr))).value.ctr == Low(ctr)
  {
  }

  /** The round trip is exact for the counters below 64 and for no others. */
  lemma RoundTrip(p: bv8, ctr: bv32)
    requires p == SERVER || p == CLIENT
    ensures Decode(Encode(Resolvent(p, ctr))) == Some(Resolvent(p, ctr)) <==> ctr < 64
  {
    DecodedCounter(p, ctr);
  }

  /** The byte on the wire: 01 and the counter from the server, 10 and the counter from
      the client. */
  lemma WireByte(ctr: bv8)
    requires ctr < 64
    ensures Encode(Resolvent(SERVER, ctr as bv32)) == [0x40 | ctr]
    ensures Encode(Resolvent(CLIENT, ctr as bv32)) == [0x80 | ctr]
  {
  }

  /** Whatever the counter, an end never takes the other's perspective for its own. */
  lemma PerspectivesDiffer(ctr: bv32)
    ensures Decode(Encode(Resolvent(SERVER, ctr))).value.perspective != CLIENT
    ensures Decode(Encode(Resolvent(CLIENT, ctr))).value.perspective != SERVER
  {
  }

  // ---------------------------------------------------------------- the verdict of one end

  datatype Verdict = Accepted | Rejected | Broken

  /** Naming takes precedence: the connection dialled by the smaller name stays. */
  function Fallback(host: Name, peer: Name, perspective: bv8): bool {
    if perspective == CLIENT then Less(host, peer)
    else if perspective == SERVER then Less(peer, host)
    else false
  }

  /** What an end concludes from its own counter and the bytes it received. */
  function Conclude(host: Name, peer: Name, perspective: bv8, ctr: bv32, received: seq<bv8>): Verdict {
    match Decode(received)
    case None => Broken
    case Some(r) =>
      if r.perspective == perspective then Broken
      else if ctr == r.ctr || Fallback(host, peer, perspective) then Accepted
      else Rejected
  }

  /** On any bytes: broken unless it is one byte with another perspective, and then
      accepted if the counters agree or the dialler's name comes first. */
  lemma Conclusion(host: Name, peer: Name, perspective: bv8, ctr: bv32, received: seq<bv8>)
    requires perspective == SERVER || perspective == CLIENT
    ensures Conclude(host, peer, perspective, ctr, received) == Broken <==>
            |received| != 1 || received[0] >> 6 == perspective
    ensures Conclude(host, peer, perspective, ctr, received) == Accepted <==>
            && |received| == 1 && received[0] >> 6 != perspective
            && (|| ctr == (received[0] & 63) as bv32
                || (if perspective == CLIENT then Precedes(host, peer) else Precedes(peer, host)))
  {
    hide Less, Precedes;
    LessIsPrecedes(host, peer);
    LessIsPrecedes(peer, host);
  }

  /** The verdict of the dialling end, and of the accepting end, of one connection. */
  function DialerVerdict(dialer: Name, acceptor: Name, dc: bv32, ac: bv32): Verdict {
    Conclude(dialer, acceptor, CLIENT, dc, Encode(Resolvent(SERVER, ac)))
  }

  function AcceptorVerdict(dialer: Name, acceptor: Name, dc: bv32, ac: bv32): Verdict {
    Conclude(acceptor, dialer, SERVER, ac, Encode(Resolvent(CLIENT, dc)))
  }

  lemma Verdicts(dialer: Name, acceptor: Name, dc: bv32, ac: bv32)
    ensures DialerVerdict(dialer, acceptor, dc, ac) ==
            if dc == Low(ac) || Less(dialer, acceptor) then Accepted else Rejected
    ensures AcceptorVerdict(dialer, acceptor, dc, ac) ==
            if ac == Low(dc) || Less(dialer, acceptor) then Accepted else Rejected
  {
    hide Less;
    DecodedCounter(SERVER, ac);
    DecodedCounter(CLIENT, dc);
    PerspectivesDiffer(ac);
    PerspectivesDiffer(dc);
    hide Encode, Decode;
  }

  /** Below 64, both ends reach the same verdict: accept when the smaller name
      dialled or the counters agree. */
  lemma SymmetricVerdict(dialer: Name, acceptor: Name, dc: bv32, ac: bv32)
    requires dc < 64 && ac < 64
    ensures DialerVerdict(dialer, acceptor, dc, ac) == AcceptorVerdict(dialer, acceptor, dc, ac)
    ensures DialerVerdict(dialer, acceptor, dc, ac) == Accepted <==> Less(dialer, acceptor) || dc == ac
    ensures DialerVerdict(dialer, acceptor, dc, ac) != Broken
  {
    Verdicts(dialer, acceptor, dc, ac);
    hide DialerVerdict, AcceptorVerdict, Less;
    LowIsExact(dc);
    LowIsExact(ac);
  }

  lemma LowIsExact(ctr: bv32)
    ensures Low(ctr) == ctr <==> ctr < 64
    ensures Low(ctr) < 64
  {
  }

  /** Over all counters, the ends disagree exactly when the greater name dialled, one
      counter and not the other has reached 64, and their low six bits agree. */
  lemma SymmetryFails(dialer: Name, acceptor: Name, dc: bv32, ac: bv32)
    ensures DialerVerdict(dialer, acceptor, dc, ac) != AcceptorVerdict(dialer, acceptor, dc, ac) <==>
            !Less(dialer, acceptor) && (dc < 64) != (ac < 64) && Low(dc) == Low(ac)
  {
    Verdicts(dialer, acceptor, dc, ac);
    hide DialerVerdict, AcceptorVerdict, Less;
    LowIsExact(dc);
    LowIsExact(ac);
    hide Low;
  }

  // ---------------------------------------------------------------- one end

  /** The shared count of living connections. */
  class Counter {
    var value: int

    constructor ()
      ensures value == 0
    {
      value := 0;
    }
  }

  /** One Connection: the end of all connections with one peer. `conn` identifies the
      QUIC connection that is installed. */
  class Connection {
    const host: Name
    const peer: Name
    const active: Counter
    var alive: bool
    var perspective: bv8
    var conn: Option<nat>
    var counter: bv32

    /** Alive exactly while a perspective is set. */
    ghost predicate Valid()
      reads this
    {
      alive <==> perspective != UNKNOWN
    }

    constructor (host: Name, peer: Name, active: Counter)
      ensures Valid() && !alive && counter == 0 && conn == None
      ensures this.host == host && this.peer == peer && this.active == active
    {
      this.host, this.peer, this.active := host, peer, active;
      alive, perspective, conn, counter := false, UNKNOWN, None, 0;
    }

    /** Number the attempt and send the resolvent; `received` is what the other end
        sent, or None if sending or receiving failed. */
    method Resolve(perspective: bv8, received: Option<seq<bv8>>) returns (sent: seq<bv8>, verdict: Verdict)
      modifies this`counter
      ensures counter == old(counter) + 1
      ensures sent == Encode(Resolvent(perspective, counter))
      ensures verdict == if received.None? then Broken else Conclude(host, peer, perspective, counter, received.value)
    {
      counter := counter + 1;
      var ctr := counter;
      sent := Encode(Resolvent(perspective, ctr));
      if received.None? {
        return sent, Broken;
      }
      var decoded := Decode(received.value);
      if decoded.None? || decoded.value.perspective == perspective {
        return sent, Broken;
      }
      if ctr == decoded.value.ctr {
        return sent, Accepted;
      }
      var accept := false;
      if perspective == CLIENT {
        accept := Less(host, peer);
      } else if perspective == SERVER {
        accept := Less(peer, host);
      }
      verdict := if accept then Accepted else Rejected;
    }

    /** The part of Establish under the lock. */
    method Install(perspective: bv8, quic: nat) returns (installed: bool)
      requires Valid() && perspective != UNKNOWN
      modifies this`alive, this`perspective, this`conn, active
      ensures Valid() && alive
      ensures installed == !old(alive)
      ensures installed ==> conn == Some(quic) && this.perspective == perspective
      ensures !installed ==> conn == old(conn) && this.perspective == old(this.perspective)
      ensures active.value == old(active.value) + if installed then 1 else 0
    {
      if alive {
        return false;
      }
      conn := Some(quic);
      this.perspective := perspective;
      alive := true;
      active.value := active.value + 1;
      return true;
    }

    /** Establish: refuse at once when alive, else resolve, and install if accepted
        and still dead. */
    method Establish(perspective: bv8, quic: nat, received: Option<seq<bv8>>) returns (sent: seq<bv8>, ok: bool)
      requires Valid() && (perspective == CLIENT || perspective == SERVER)
      modifies this, active
      ensures Valid()
      ensures old(alive) ==> !ok && sent == [] && counter == old(counter)
      ensures !old(alive) ==> counter == old(counter) + 1 && sent == Encode(Resolvent(perspective, counter))
      ensures ok <==> !old(alive) && received.Some? &&
                      Conclude(host, peer, perspective, counter, received.value) == Accepted
      ensures ok ==> alive && conn == Some(quic) && this.perspective == perspective
      ensures ok ==> active.value == old(active.value) + 1
      ensures !ok ==> alive == old(alive) && conn == old(conn) && active.value == old(active.value)
      ensures !ok ==> this.perspective == old(this.perspective)
    {
      if alive && this.perspective != UNKNOWN {
        return [], false;
      }
      var verdict;
      sent, verdict := Resolve(perspective, received);
      if verdict != Accepted {
        return sent, false;
      }
      ok := Install(perspective, quic);
    }

    method Close()
      requires Valid()
      modifies this, active
      ensures Valid() && !alive && conn == old(conn)
      ensures old(alive) ==> counter == 0 && active.value == old(active.value) - 1
      ensures !old(alive) ==> counter == old(counter) && active.value == old(active.value)
    {
      if !alive {
        return;
      }
      alive := false;
      perspective := UNKNOWN;
      counter := 0;
      active.value := active.value - 1;
    }
  }

  // ---------------------------------------------------------------- crossing dials

  /** A set of attempts between two peers. Each end numbers the attempts in the order
      in which it takes them up and concludes them in an order of its own; attempts
      are identified by their place in `bySmaller`, which says who dialled. */
  datatype Crossing = Crossing(
    smaller: Name,
    larger: Name,
    bySmaller: seq<bool>,
    ctrSmaller: seq<bv32>, // the number the smaller-named end gave each attempt
    ctrLarger: seq<bv32>)

  predicate WellFormed(x: Crossing) {
    && Less(x.smaller, x.larger)
    && |x.ctrSmaller| == |x.bySmaller| && |x.ctrLarger| == |x.bySmaller|
    && (forall i :: 0 <= i < |x.bySmaller| ==> x.ctrSmaller[i] < 64 && x.ctrLarger[i] < 64)
  }

  function SmallerVerdict(x: Crossing, i: nat): Verdict
    requires WellFormed(x) && i < |x.bySmaller|
  {
    if x.bySmaller[i] then DialerVerdict(x.smaller, x.larger, x.ctrSmaller[i], x.ctrLarger[i])
    else AcceptorVerdict(x.larger, x.smaller, x.ctrLarger[i], x.ctrSmaller[i])
  }

  function LargerVerdict(x: Crossing, i: nat): Verdict
    requires WellFormed(x) && i < |x.bySmaller|
  {
    if x.bySmaller[i] then AcceptorVerdict(x.smaller, x.larger, x.ctrSmaller[i], x.ctrLarger[i])
    else DialerVerdict(x.larger, x.smaller, x.ctrLarger[i], x.ctrSmaller[i])
  }

  /** Both ends keep an attempt if the smaller name dialled it; if the larger did,
      exactly when both ends gave it the same number. */
  lemma AttemptRule(x: Crossing, i: nat)
    requires WellFormed(x) && i < |x.bySmaller|
    ensures SmallerVerdict(x, i) == LargerVerdict(x, i)
    ensures SmallerVerdict(x, i) == Accepted <==> x.bySmaller[i] || x.ctrSmaller[i] == x.ctrLarger[i]
  {
    hide DialerVerdict, AcceptorVerdict, Less;
    LessAsymmetric(x.smaller, x.larger);
    if x.bySmaller[i] {
      SymmetricVerdict(x.smaller, x.larger, x.ctrSmaller[i], x.ctrLarger[i]);
    } else {
      SymmetricVerdict(x.larger, x.smaller, x.ctrLarger[i], x.ctrSmaller[i]);
    }
  }

  lemma LessAsymmetric(a: Name, b: Name)
    requires Less(a, b)
    ensures !Less(b, a)
  {
    LessIrreflexive(a);
    if Less(b, a) {
      LessTransitive(a, b, a);
    }
  }

  /** The attempt an end has installed after concluding those in `done`, in that
      order: the first accepted one, and never a second. */
  function InstalledBy(verdicts: seq<Verdict>, done: seq<nat>): Option<nat>
    requires forall k :: 0 <= k < |done| ==> done[k] < |verdicts|
  {
    if done == [] then None
    else if verdicts[done[0]] == Accepted then Some(done[0])
    else InstalledBy(verdicts, done[1..])
  }

  lemma {:induction false} InstalledIsAccepted(verdicts: seq<Verdict>, done: seq<nat>)
    requires forall k :: 0 <= k < |done| ==> done[k] < |verdicts|
    ensures InstalledBy(verdicts, done).Some? <==> exists k :: 0 <= k < |done| && verdicts[done[k]] == Accepted
    ensures InstalledBy(verdicts, done).Some? ==>
              InstalledBy(verdicts, done).value in done && verdicts[InstalledBy(verdicts, done).value] == Accepted
    decreases |done|
  {
    if done == [] || verdicts[done[0]] == Accepted {
    } else {
      InstalledIsAccepted(verdicts, done[1..]);
      if k :| 0 <= k < |done| && verdicts[done[k]] == Accepted {
        assert done[1..][k - 1] == done[k];
      }
      if k :| 0 <= k < |done[1..]| && verdicts[done[1..][k]] == Accepted {
        assert verdicts[done[k + 1]] == Accepted;
      }
    }
  }

  /** That is what Connection does: the handlers of one end take the lock in the order
      `done`, each with the verdict on its own attempt, whatever happened since. */
  method InstallInOrder(c: Connection, verdicts: seq<Verdict>, done: seq<nat>, perspectives: seq<bv8>)
    requires c.Valid() && !c.alive && |perspectives| == |verdicts|
    requires forall k :: 0 <= k < |done| ==> done[k] < |verdicts| && perspectives[done[k]] != UNKNOWN
    modifies c, c.active
    ensures c.Valid()
    ensures c.alive <==> InstalledBy(verdicts, done).Some?
    ensures c.alive ==> c.conn == InstalledBy(verdicts, done) && c.conn.value < |verdicts|
    ensures c.alive ==> c.perspective == perspectives[c.conn.value]
    ensures c.active.value == old(c.active.value) + if c.alive then 1 else 0
  {
    for k := 0 to |done|
      invariant c.Valid()
      invariant c.alive ==> c.conn == InstalledBy(verdicts, done) && c.conn.Some? && c.conn.value < |verdicts|
      invariant c.alive ==> c.perspective == perspectives[c.conn.value]
      invariant !c.alive ==> InstalledBy(verdicts, done) == InstalledBy(verdicts, done[k..])
      invariant c.active.value == old(c.active.value) + if c.alive then 1 else 0
    {
      assert done[k..][1..] == done[k + 1..];
      if verdicts[done[k]] == Accepted {
        var installed := c.Install(perspectives[done[k]], done[k]);
      }
    }
  }

  function SmallerVerdicts(x: Crossing): (vs: seq<Verdict>)
    requires WellFormed(x)
    ensures |vs| == |x.bySmaller|
  {
    seq(|x.bySmaller|, i requires 0 <= i < |x.bySmaller| => SmallerVerdict(x, i))
  }

  function LargerVerdicts(x: Crossing): (vs: seq<Verdict>)
    requires WellFormed(x)
    ensures |vs| == |x.bySmaller|
  {
    seq(|x.bySmaller|, i requires 0 <= i < |x.bySmaller| => LargerVerdict(x, i))
  }

  /** Crossing dials never cancel out: whatever the numbers and the orders, when both
      ends have concluded the same attempts both are alive or both are dead, and both
      are alive as soon as the smaller name dialled one of them. */
  lemma CrossingDials(x: Crossing, doneSmaller: seq<nat>, doneLarger: seq<nat>)
    requires WellFormed(x)
    requires forall k :: 0 <= k < |doneSmaller| ==> doneSmaller[k] < |x.bySmaller|
    requires forall k :: 0 <= k < |doneLarger| ==> doneLarger[k] < |x.bySmaller|
    requires forall i :: i in doneSmaller <==> i in doneLarger
    ensures InstalledBy(SmallerVerdicts(x), doneSmaller).Some? <==> InstalledBy(LargerVerdicts(x), doneLarger).Some?
    ensures InstalledBy(SmallerVerdicts(x), doneSmaller).Some? <==>
            exists i :: i in doneSmaller && (x.bySmaller[i] || x.ctrSmaller[i] == x.ctrLarger[i])
  {
    hide SmallerVerdict, LargerVerdict, InstalledBy;
    var vs, vl := SmallerVerdicts(x), LargerVerdicts(x);
    assert vs == vl by {
      forall i | 0 <= i < |vs|
        ensures vs[i] == vl[i]
      {
        AttemptRule(x, i);
      }
    }
    InstalledIsAccepted(vs, doneSmaller);
    InstalledIsAccepted(vl, doneLarger);
    forall i | 0 <= i < |vs|
      ensures vs[i] == Accepted <==> x.bySmaller[i] || x.ctrSmaller[i] == x.ctrLarger[i]
    {
      AttemptRule(x, i);
    }
    assert (exists k :: 0 <= k < |doneSmaller| && vs[doneSmaller[k]] == Accepted) <==>
           (exists k :: 0 <= k < |doneLarger| && vl[doneLarger[k]] == Accepted) by {
      if k :| 0 <= k < |doneSmaller| && vs[doneSmaller[k]] == Accepted {
        assert doneSmaller[k] in doneLarger;
      }
      if k :| 0 <= k < |doneLarger| && vl[doneLarger[k]] == Accepted {
        assert doneLarger[k] in doneSmaller;
      }
    }
  }

  predicate Acceptable(x: Crossing, i: nat)
    requires WellFormed(x) && i < |x.bySmaller|
  {
    x.bySmaller[i] || x.ctrSmaller[i] == x.ctrLarger[i]
  }

  /** The attempts of `all`, each once, in some order. */
  ghost predicate IsOrder(done: seq<nat>, all: set<nat>) {
    && (forall i :: i in done <==> i in all)
    && (forall j, k :: 0 <= j < k < |done| ==> done[j] != done[k])
  }

  lemma {:induction false} SomeOrder(all: set<nat>) returns (done: seq<nat>)
    ensures IsOrder(done, all)
    decreases |all|
  {
    if all == {} {
      done := [];
    } else {
      var i :| i in all;
      var rest := SomeOrder(all - {i});
      done := [i] + rest;
      assert IsOrder(done, all) by { OrderFirst(all, i, rest); }
    }
  }

  lemma OrderFirst(all: set<nat>, i: nat, rest: seq<nat>)
    requires i in all && IsOrder(rest, all - {i})
    ensures IsOrder([i] + rest, all)
  {
    var done := [i] + rest;
    forall j | j in all
      ensures j in done
    {
      if j != i {
        assert j in rest;
      }
    }
    forall j, k | 0 <= j < k < |done|
      ensures done[j] != done[k]
    {
      assert done[k] == rest[k - 1];
      if j > 0 {
        assert done[j] == rest[j - 1];
      }
    }
  }

  /** Of two acceptable attempts each end installs the one it concludes first. */
  lemma EndsMayDiffer(x: Crossing, all: set<nat>, a: nat, b: nat) returns (d: seq<nat>, e: seq<nat>)
    requires WellFormed(x) && forall i :: i in all ==> i < |x.bySmaller|
    requires a in all && b in all && a != b && Acceptable(x, a) && Acceptable(x, b)
    ensures IsOrder(d, all) && IsOrder(e, all)
    ensures (forall k :: 0 <= k < |d| ==> d[k] < |x.bySmaller|) && (forall k :: 0 <= k < |e| ==> e[k] < |x.bySmaller|)
    ensures InstalledBy(SmallerVerdicts(x), d) == Some(a) && InstalledBy(LargerVerdicts(x), e) == Some(b)
  {
    hide SmallerVerdict, LargerVerdict, IsOrder;
    AttemptRule(x, a);
    AttemptRule(x, b);
    var restA := SomeOrder(all - {a});
    var restB := SomeOrder(all - {b});
    OrderFirst(all, a, restA);
    OrderFirst(all, b, restB);
    d, e := [a] + restA, [b] + restB;
    InOrder(d, all);
    InOrder(e, all);
  }

  lemma InOrder(done: seq<nat>, all: set<nat>)
    requires IsOrder(done, all)
    ensures forall k :: 0 <= k < |done| ==> done[k] in all
  {
    assert forall k :: 0 <= k < |done| ==> done[k] in done;
  }

  /** With one acceptable attempt at most, the orders make no difference. */
  lemma EndsAgree(x: Crossing, all: set<nat>, d: seq<nat>, e: seq<nat>)
    requires WellFormed(x) && (forall i :: i in all ==> i < |x.bySmaller|) && IsOrder(d, all) && IsOrder(e, all)
    requires forall a, b :: a in all && b in all && Acceptable(x, a) && Acceptable(x, b) ==> a == b
    ensures (forall k :: 0 <= k < |d| ==> d[k] < |x.bySmaller|) && (forall k :: 0 <= k < |e| ==> e[k] < |x.bySmaller|)
    ensures InstalledBy(SmallerVerdicts(x), d) == InstalledBy(LargerVerdicts(x), e)
  {
    hide SmallerVerdict, LargerVerdict, InstalledBy;
    InOrder(d, all);
    InOrder(e, all);
    CrossingDials(x, d, e);
    InstalledIsAccepted(SmallerVerdicts(x), d);
    InstalledIsAccepted(LargerVerdicts(x), e);
    if InstalledBy(SmallerVerdicts(x), d).Some? {
      AttemptRule(x, InstalledBy(SmallerVerdicts(x), d).value);
      AttemptRule(x, InstalledBy(LargerVerdicts(x), e).value);
    }
  }

  /** Exactly when the ends are sure to install the same connection, whatever the
      orders in which they conclude: at most one attempt is acceptable. */
  lemma SameConnection(x: Crossing, all: set<nat>)
    requires WellFormed(x) && forall i :: i in all ==> i < |x.bySmaller|
    ensures (forall d, e :: IsOrder(d, all) && IsOrder(e, all) ==> AgreeOn(x, d, e)) <==>
            forall a, b :: a in all && b in all && Acceptable(x, a) && Acceptable(x, b) ==> a == b
  {
    if a, b :| a in all && b in all && Acceptable(x, a) && Acceptable(x, b) && a != b {
      var d, e := EndsMayDiffer(x, all, a, b);
      assert !AgreeOn(x, d, e);
    } else {
      forall d, e | IsOrder(d, all) && IsOrder(e, all)
        ensures AgreeOn(x, d, e)
      {
        EndsAgree(x, all, d, e);
      }
    }
  }

  /** Both ends install the same connection, or neither installs any. */
  predicate AgreeOn(x: Crossing, d: seq<nat>, e: seq<nat>)
    requires WellFormed(x)
  {
    && (forall k :: 0 <= k < |d| ==> d[k] < |x.bySmaller|)
    && (forall k :: 0 <= k < |e| ==> e[k] < |x.bySmaller|)
    && InstalledBy(SmallerVerdicts(x), d) == InstalledBy(LargerVerdicts(x), e)
  }

  /** Two crossing dials that both ends number alike: both are accepted, and each end
      may keep a different one. */
  lemma CrossingMayDiffer(smaller: Name, larger: Name)
    requires Less(smaller, larger)
    ensures var x := Crossing(smaller, larger, [true, false], [1, 2], [1, 2]);
            && WellFormed(x)
            && InstalledBy(SmallerVerdicts(x), [0, 1]) == Some(0)
            && InstalledBy(LargerVerdicts(x), [1, 0]) == Some(1)
  {
    hide SmallerVerdict, LargerVerdict, Less;
    var x := Crossing(smaller, larger, [true, false], [1, 2], [1, 2]);
    AttemptRule(x, 0);
    AttemptRule(x, 1);
  }
}
