/** Conflict detection and the (clock, name) priority (p2p/conflicts_resolver.go). */
module Conflicts {
  import opened Names
  import opened Messages
  import opened Registry

  /** A request as its initiator issued it. */
  datatype Issued = Issued(initiator: Name, request: Request)

  /** `a` has strictly higher priority than `b`. */
  predicate Higher(a: Issued, b: Issued) {
    || b.request.clock < a.request.clock
    || (b.request.clock == a.request.clock && Less(b.initiator, a.initiator))
  }

  /** `a` and `b` contend for one path pair, come from different peers, and `a` wins. */
  predicate Beats(a: Issued, b: Issued) {
    && a.initiator != b.initiator
    && SamePaths(a.request, b.request)
    && Higher(a, b)
  }

  /** The registered transaction `d` makes its holder refuse `msg`. */
  predicate Refuses(d: TxData, msg: Message) {
    && msg.body.Req?
    && d.request.Some?
    && Beats(Issued(d.initiatorName, d.request.value), Issued(msg.peer, msg.body.request))
  }

  predicate InConflict(v: View, msg: Message) {
    exists t :: t in v && Refuses(v[t], msg)
  }

  /** What makes a registered transaction win, field by field: it holds a request of
      another peer for the same two paths, with a greater clock, or with an equal clock
      and a name that comes later in dictionary order. */
  ghost predicate Wins(d: TxData, peer: Name, req: Request) {
    && d.request.Some? && d.initiatorName != peer
    && d.request.value.metadata.relativePath == req.metadata.relativePath
    && d.request.value.metadata.newRelativePath == req.metadata.newRelativePath
    && (|| d.request.value.clock > req.clock
        || (d.request.value.clock == req.clock && Precedes(peer, d.initiatorName)))
  }

  lemma RefusesIsWins(d: TxData, msg: Message)
    requires msg.body.Req?
    ensures Refuses(d, msg) <==> Wins(d, msg.peer, msg.body.request)
  {
    hide Less, Precedes;
    LessIsPrecedes(msg.peer, d.initiatorName);
  }

  lemma ConflictIsWins(v: View, msg: Message)
    requires msg.body.Req?
    ensures InConflict(v, msg) <==> exists t :: t in v && Wins(v[t], msg.peer, msg.body.request)
  {
    hide Refuses, Wins;
    forall t | t in v {
      RefusesIsWins(v[t], msg);
    }
  }

  lemma BeatsIrreflexive(a: Issued)
    ensures !Beats(a, a)
  {
  }

  /** Refusals cannot form a cycle: priority strictly rises along them. */
  lemma HigherTransitive(a: Issued, b: Issued, c: Issued)
    requires Higher(a, b) && Higher(b, c)
    ensures Higher(a, c)
  {
    if a.request.clock == b.request.clock && b.request.clock == c.request.clock {
      LessTransitive(c.initiator, b.initiator, a.initiator);
    }
  }

  lemma HigherIrreflexive(a: Issued)
    ensures !Higher(a, a)
  {
    LessIrreflexive(a.initiator);
  }

  /** Of two contenders from different peers exactly one wins. */
  lemma BeatsTotal(a: Issued, b: Issued)
    requires a.initiator != b.initiator && SamePaths(a.request, b.request)
    ensures Beats(a, b) != Beats(b, a)
  {
    LessTotal(a.initiator, b.initiator);
  }

  /** The clock after `IncrementClock`: atomic.Uint64 wraps around. */
  function Bump(c: Uint64): Uint64 {
    (c + 1) % UINT64_SIZE
  }

  class ConflictsResolver {
    var clock: Uint64

    constructor ()
      ensures clock == 0
    {
      clock := 0;
    }

    method IncrementClock()
      modifies this
      ensures clock == Bump(old(clock))
      ensures clock == if old(clock) == UINT64_SIZE - 1 then 0 else old(clock) + 1
    {
      clock := (clock + 1) % UINT64_SIZE;
    }

    /** The loop over the registry; the order in which Go ranges over a map is
        arbitrary, and so is the choice of the next id here. */
    method DetectAndResolveConflict(trans: Transactions, msg: Message) returns (conflict: bool)
      requires msg.body.Req?
      ensures conflict <==> InConflict(trans.View(), msg)
      ensures conflict <==> exists t :: t in trans.ts && Wins(trans.ts[t].Data(), msg.peer, msg.body.request)
    {
      ghost var v := trans.View();
      ConflictIsWins(v, msg);
      assert forall t :: t in trans.ts ==> v[t] == trans.ts[t].Data();
      hide Wins;
      var req := msg.body.request;
      var todo := trans.ts.Keys;
      while todo != {}
        invariant todo <= trans.ts.Keys
        invariant forall t :: t in trans.ts && t !in todo ==> !Refuses(trans.ts[t].Data(), msg)
        decreases |todo|
      {
        var k :| k in todo;
        todo := todo - {k};
        var t := trans.ts[k];
        if t.request == None {
          continue;
        }
        if t.initiatorName == msg.peer {
          continue;
        }
        var meta := t.request.value.metadata;
        if !(meta.relativePath == req.metadata.relativePath && meta.newRelativePath == req.metadata.newRelativePath) {
          continue;
        }
        if req.clock < t.request.value.clock {
          assert trans.View()[k] == t.Data();
          return true;
        }
        if req.clock == t.request.value.clock && Less(msg.peer, t.initiatorName) {
          assert trans.View()[k] == t.Data();
          return true;
        }
      }
      return false;
    }
  }
}
